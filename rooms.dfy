/**
 * The server's `Room` (server/rooms/models.py): memberships, the Redis keys that
 * bind participants to peer ids and peer ids to channels, the stored messages,
 * and the messages handed to Channels. The Django rows and Redis entries are
 * maps the methods update in place; what is sent is a log.
 */
module Rooms {
  import opened Wrappers
  import opened Values
  import opened RoomCodec
  import opened RoomIds

  type ParticipantId = nat

  datatype Participant = Participant(id: ParticipantId, name: Option<string>)

  /** `RoomMembership.ROLE`: `g` and `o`. */
  datatype Role = Guest | Owner

  datatype Membership = Membership(participant: Participant, role: Role, name: Option<string>)

  /** `RoomMembership.get_display_name`: the membership's own name unless it is `None`. */
  function DisplayName(m: Membership): Option<string> {
    if m.name.Some? then m.name else m.participant.name
  }

  /** Where `send` hands a message: the room's group, or one peer's channel (its name may be missing). */
  datatype Destination = Group(groupName: string) | Channel(channelName: Option<Value>)

  /** One `to.send({'text': ...})`, with the envelope before `json.dumps`. */
  datatype Delivery = Delivery(to: Destination, text: Value)

  /** The room's rows and keys, for stating what a method leaves alone. */
  datatype RoomState = RoomState(
    memberships: map<ParticipantId, Membership>,
    participantPeerIds: map<ParticipantId, string>,
    peers: map<string, ParticipantId>,
    peerData: map<string, map<string, Value>>,
    messages: seq<RoomMessage>,
    outbox: seq<Delivery>)

  /** The hash `rooms:<id>:peers:<peer>`, empty when the key does not exist. */
  function PeerHash(peerData: map<string, map<string, Value>>, peerId: string): map<string, Value> {
    if peerId in peerData then peerData[peerId] else map[]
  }

  function AnnounceMessage(serialized: Value): RoomMessage {
    RoomMessage("announce", Obj(map["peer" := serialized]))
  }

  function LeaveMessage(peerId: string): RoomMessage {
    RoomMessage("leave", Obj(map["id" := Str(peerId)]))
  }

  /** Both messages `join` and `leave` broadcast are known to the codec, and are stored. */
  lemma BookkeepingMessagesEncode(m: RoomMessage, code: string)
    requires m.typeName in {"announce", "leave"}
    requires code == if m.typeName == "announce" then "a" else "l"
    ensures EncodeMessage(m) == Success(Obj(map["t" := Str(code), "p" := m.payload]))
    ensures SaveDecision(m, None, None) == Success(true)
  {
    InverseOfCode(code);
  }

  class Room {
    const id: string
    const owner: Participant
    /** `PeerSerializer(membership).data`; the serializer is not part of this model. */
    const serializePeer: Membership -> Value

    var memberships: map<ParticipantId, Membership>        // RoomMembership rows of this room
    var participantPeerIds: map<ParticipantId, string>     // rooms:<id>:participants:<pid>:peer_id
    var peers: map<string, ParticipantId>                  // the hash rooms:<id>:peers
    var peerData: map<string, map<string, Value>>          // the hashes rooms:<id>:peers:<peer>
    var messages: seq<RoomMessage>                         // Message rows of this room
    var outbox: seq<Delivery>

    ghost function State(): RoomState
      reads this
    {
      RoomState(memberships, participantPeerIds, peers, peerData, messages, outbox)
    }

    /**
     * Memberships are keyed by their participant; only the room's owner holds the
     * owner role; every connected peer has a channel.
     */
    ghost predicate Valid()
      reads this
    {
      && (forall p :: p in memberships ==> memberships[p].participant.id == p)
      && (forall p :: p in memberships && memberships[p].role == Owner ==> p == owner.id)
      && (forall peer :: peer in peers ==> peer in peerData && "channel" in peerData[peer])
    }

    constructor (id: string, owner: Participant, serializePeer: Membership -> Value)
      ensures Valid()
      ensures this.id == id && this.owner == owner && this.serializePeer == serializePeer
      ensures State() == RoomState(map[], map[], map[], map[], [], [])
    {
      this.id := id;
      this.owner := owner;
      this.serializePeer := serializePeer;
      memberships, participantPeerIds, peers, peerData := map[], map[], map[], map[];
      messages, outbox := [], [];
    }

    /** `is_admin`: participants are equal when their primary keys are. */
    predicate IsAdmin(p: Participant) {
      p.id == owner.id
    }

    function GroupName(): string {
      "room." + id
    }

    /** `get_peer_id`: `None` when the key does not exist. */
    function GetPeerId(p: Participant): Option<string>
      reads this
    {
      if p.id in participantPeerIds then Some(participantPeerIds[p.id]) else None
    }

    /** `get_peer_data`: `None` when the hash or its field does not exist. */
    function GetPeerData(peerId: string, key: string): Option<Value>
      reads this
    {
      var h := PeerHash(peerData, peerId);
      if key in h then Some(h[key]) else None
    }

    function ChannelForPeer(peerId: string): Destination
      reads this
    {
      Channel(GetPeerData(peerId, "channel"))
    }

    /** `set_peer_id`: stores a fresh version-4 UUID as the participant's peer id. */
    method SetPeerId(p: Participant) returns (peerId: string)
      requires Valid()
      modifies this
      ensures Valid()
      ensures IsUuid4Hex(peerId)
      ensures State() == old(State()).(participantPeerIds := old(participantPeerIds)[p.id := peerId])
      ensures GetPeerId(p) == Some(peerId)
    {
      peerId := NewPeerId();
      participantPeerIds := participantPeerIds[p.id := peerId];
    }

    /**
     * `set_peer_data`: sets one field of the peer's hash. Reading it back gives
     * the value; every other peer and field reads as before.
     */
    method SetPeerData(peerId: string, key: string, data: Value)
      modifies this
      ensures old(Valid()) ==> Valid()
      ensures State() == old(State()).(peerData := old(peerData)[peerId := PeerHash(old(peerData), peerId)[key := data]])
      ensures GetPeerData(peerId, key) == Some(data)
      ensures forall q, k :: q != peerId || k != key ==> GetPeerData(q, k) == old(GetPeerData(q, k))
    {
      peerData := peerData[peerId := PeerHash(peerData, peerId)[key := data]];
    }

    /** `connect_peer`: binds the peer id to the participant and records its channel. */
    method ConnectPeer(peerId: string, channelName: string, p: Participant)
      requires Valid()
      modifies this
      ensures Valid()
      ensures State() == old(State()).(
        peers := old(peers)[peerId := p.id],
        peerData := old(peerData)[peerId := PeerHash(old(peerData), peerId)["channel" := Str(channelName)]])
      ensures ChannelForPeer(peerId) == Channel(Some(Str(channelName)))
    {
      peers := peers[peerId := p.id];
      SetPeerData(peerId, "channel", Str(channelName));
    }

    /** `disconnect_peer`: unbinds the peer id and deletes all of its data. */
    method DisconnectPeer(peerId: string)
      requires Valid()
      modifies this
      ensures Valid()
      ensures State() == old(State()).(peers := old(peers) - {peerId}, peerData := old(peerData) - {peerId})
      ensures forall key :: GetPeerData(peerId, key).None?
    {
      peers := peers - {peerId};
      peerData := peerData - {peerId};
    }

    /**
     * `send(message, to_peer, save)`: the destination is chosen, the message is
     * stored if the save decision says so, and then it is encoded and handed
     * over. A message whose save decision raises is neither stored nor sent; one
     * the codec cannot encode is not sent, but it is stored first if it was to be.
     */
    method Send(m: RoomMessage, toPeer: Option<string>, save: Option<bool>) returns (r: Outcome<PyError>)
      requires Valid()
      modifies this
      ensures Valid()
      ensures var decision := SaveDecision(m, toPeer, save);
        var to := if toPeer.None? then Group(GroupName()) else old(ChannelForPeer(toPeer.value));
        && (r.Pass? <==> decision.Success? && KnownType(m.typeName))
        && State() == old(State()).(
             messages := old(messages) + (if decision == Success(true) then [m] else []),
             outbox := old(outbox) + (if r.Pass? then [Delivery(to, EncodeMessage(m).value)] else []))
    {
      var to := if toPeer.None? then Group(GroupName()) else ChannelForPeer(toPeer.value);
      var decision := SaveDecision(m, toPeer, save);
      if decision.Failure? {
        return Fail(decision.error);
      }
      if decision.value {
        messages := messages + [m];
      }
      var text := EncodeMessage(m);
      if text.Failure? {
        return Fail(text.error);
      }
      outbox := outbox + [Delivery(to, text.value)];
      r := Pass;
    }

    /** `announce`: broadcasts the membership of the participant; raises when there is none. */
    method Announce(peerId: string, p: Participant) returns (r: Outcome<PyError>)
      requires Valid()
      modifies this
      ensures Valid()
      ensures r.Fail? <==> p.id !in old(memberships)
      ensures r.Fail? ==> r.error == DoesNotExist && State() == old(State())
      ensures r.Pass? ==>
        var m := AnnounceMessage(serializePeer(old(memberships)[p.id]));
        State() == old(State()).(
          messages := old(messages) + [m],
          outbox := old(outbox) + [Delivery(Group(GroupName()), Obj(map["t" := Str("a"), "p" := m.payload]))])
    {
      if p.id !in memberships {
        return Fail(DoesNotExist);
      }
      var m := AnnounceMessage(serializePeer(memberships[p.id]));
      BookkeepingMessagesEncode(m, "a");
      r := Send(m, None, None);
    }

    /**
     * `leave`: the peer is disconnected and its departure broadcast and stored.
     * The participant's peer id is kept.
     */
    method Leave(peerId: string)
      requires Valid()
      modifies this
      ensures Valid()
      ensures var m := LeaveMessage(peerId);
        State() == old(State()).(
          peers := old(peers) - {peerId},
          peerData := old(peerData) - {peerId},
          messages := old(messages) + [m],
          outbox := old(outbox) + [Delivery(Group(GroupName()), Obj(map["t" := Str("l"), "p" := m.payload]))])
    {
      DisconnectPeer(peerId);
      var m := LeaveMessage(peerId);
      BookkeepingMessagesEncode(m, "l");
      var r := Send(m, None, None);
    }

    /**
     * `join`: a participant who is not yet a member gets a membership, with the
     * owner role exactly when they own the room; a stored peer id is reused and
     * otherwise a fresh one is stored; the peer is connected on `channelName`
     * and announced.
     */
    method Join(p: Participant, channelName: string) returns (peerId: string)
      requires Valid()
      modifies this
      ensures Valid()
      ensures p.id in old(memberships) ==> memberships == old(memberships)
      ensures p.id !in old(memberships) ==>
        memberships == old(memberships)[p.id := Membership(p, if IsAdmin(p) then Owner else Guest, None)]
        && DisplayName(memberships[p.id]) == p.name
      ensures p.id in old(participantPeerIds) ==>
        peerId == old(participantPeerIds)[p.id] && participantPeerIds == old(participantPeerIds)
      ensures p.id !in old(participantPeerIds) ==>
        IsUuid4Hex(peerId) && participantPeerIds == old(participantPeerIds)[p.id := peerId]
      ensures peers == old(peers)[peerId := p.id]
      ensures peerData == old(peerData)[peerId := PeerHash(old(peerData), peerId)["channel" := Str(channelName)]]
      ensures ChannelForPeer(peerId) == Channel(Some(Str(channelName)))
      ensures var m := AnnounceMessage(serializePeer(memberships[p.id]));
        && messages == old(messages) + [m]
        && outbox == old(outbox) + [Delivery(Group(GroupName()), Obj(map["t" := Str("a"), "p" := m.payload]))]
    {
      if p.id !in memberships {
        var role := if p.id == owner.id then Owner else Guest;
        memberships := memberships[p.id := Membership(p, role, None)];
      }
      var existing := GetPeerId(p);
      if existing.Some? {
        peerId := existing.value;
      } else {
        peerId := SetPeerId(p);
      }
      ConnectPeer(peerId, channelName, p);
      var r := Announce(peerId, p);
    }
  }

  /**
   * A participant who joins, leaves and joins again gets the same peer id back,
   * keeps one membership, and ends up connected on the second channel.
   */
  method RejoinKeepsPeerId(room: Room, p: Participant, first: string, second: string)
    returns (id1: string, id2: string)
    requires room.Valid()
    modifies room
    ensures room.Valid()
    ensures id1 == id2
    ensures room.memberships.Keys == old(room.memberships.Keys) + {p.id}
    ensures id2 in room.peers && room.peers[id2] == p.id && room.ChannelForPeer(id2) == Channel(Some(Str(second)))
  {
    id1 := room.Join(p, first);
    room.Leave(id1);
    id2 := room.Join(p, second);
  }
}

/**
 * `RoomConnection` (client/app/rooms/connection.js) as a class whose methods update
 * its fields in place. Each method is proved to do what the function of the same
 * name in `ConnectionModel` says, and to keep at most one peer per id.
 */
module Connection {
  import opened Wrappers
  import opened Values
  import opened Text
  import opened ConnectionModel
  import ConnectionProps

  class RoomConnection {
    const urls: Urls
    const casing: Casing
    const fileTransfers: Transfers

    var status: Status
    var stream: Value
    var peers: seq<Peer>
    var selfPeerId: Option<Value>

    // The collaborators, as what has been done to them.
    var awaitingOpen: bool            // the socket's one-shot 'open' listener
    var nextHandle: nat               // identity of the next Peer object
    var socketLog: seq<SocketCall>
    var httpLog: seq<HttpCall>
    var peerLog: seq<PeerCall>
    var emitted: seq<Notice>

    ghost function State(): Conn
      reads this
    {
      Conn(status, stream, peers, selfPeerId, awaitingOpen, nextHandle, socketLog, httpLog, peerLog, emitted)
    }

    ghost predicate Valid()
      reads this
    {
      Invariant(State())
    }

    ghost function Env(): ConnectionModel.Env
      reads this
    {
      ConnectionModel.Env(urls, casing, fileTransfers)
    }

    constructor (urls: Urls, casing: Casing, fileTransfers: Transfers)
      ensures Valid() && State() == Initial()
      ensures this.urls == urls && this.casing == casing && this.fileTransfers == fileTransfers
    {
      this.urls := urls;
      this.casing := casing;
      this.fileTransfers := fileTransfers;
      peers := [];
      selfPeerId := None;
      stream := Null;
      awaitingOpen := false;
      nextHandle := 0;
      socketLog, httpLog, peerLog, emitted := [], [], [], [];
      status := Disconnected;
    }

    // -------------------------------------------------------------------------
    // Status

    method OnConnect()
      requires Valid()
      modifies this
      ensures Valid() && State() == ConnectionModel.OnConnect(old(State()))
    {
      status := Connected;
      emitted := emitted + [EmitConnect];
    }

    /** Opens the socket, once, from the disconnected state. */
    method Connect()
      requires Valid()
      modifies this
      ensures Valid() && State() == ConnectionModel.Connect(old(State()))
      ensures old(status) == Disconnected ==> status == Connecting && peers == old(peers) && selfPeerId == old(selfPeerId)
      ensures old(status) != Disconnected ==> State() == old(State())
    {
      if status == Disconnected {
        status := Connecting;
        awaitingOpen := true;
        socketLog := socketLog + [Open];
        emitted := emitted + [EmitConnecting];
      }
    }

    /** The socket's 'open' event, delivered to the listener `Connect` registered. */
    method SocketOpened()
      requires Valid()
      modifies this
      ensures Valid() && State() == ConnectionModel.SocketOpened(old(State()))
    {
      if awaitingOpen {
        awaitingOpen := false;
        OnConnect();
      }
    }

    // -------------------------------------------------------------------------
    // The peer list

    function GetPeer(id: Value): Option<Peer>
      reads this
    {
      FindPeer(peers, id)
    }

    method AddPeer(data: Value, isInitiator: bool) returns (r: Result<Peer, Thrown>)
      requires Valid()
      modifies this
      ensures Valid() && (State(), r) == ConnectionModel.AddPeer(old(State()), data, isInitiator)
      ensures !Nullish(data) ==> r.Success? && r.value.handle == old(nextHandle)
      ensures !Nullish(data) && old(GetPeer(Get(data, "peerId"))).None? ==> peers == old(peers) + [r.value]
      ensures old(GetPeer(Get(data, "peerId"))).Some? ==> peers == old(peers)
    {
      if Nullish(data) {
        return Failure(NotAnObject);
      }
      ghost var c := State();
      ConnectionProps.AddPeerAppendsOrKeeps(c, data, isInitiator);
      var peer := Peer(nextHandle, Get(data, "peerId"), Get(data, "uid"), Get(data, "info"), isInitiator);
      assert peer == NewPeer(c, data, isInitiator);
      nextHandle := nextHandle + 1;
      if Truthy(stream) {
        peerLog := peerLog + [AddLocalStream(peer.handle, stream)];
      }
      var existing := GetPeer(peer.id);
      if existing.None? {
        peers := peers + [peer];
      }
      emitted := emitted + [EmitPeerAdded(peer)];
      r := Success(peer);
      assert State() == ConnectionModel.AddPeer(c, data, isInitiator).0;
    }

    method RemovePeer(id: Value) returns (r: Result<Peer, Thrown>)
      requires Valid()
      modifies this
      ensures Valid() && (State(), r) == ConnectionModel.RemovePeer(old(State()), id)
      ensures r.Failure? <==> old(GetPeer(id)).None?
      ensures r.Success? ==> exists k :: 0 <= k < |old(peers)| && old(peers)[k] == r.value
                                        && peers == old(peers)[..k] + old(peers)[k + 1..]
    {
      ghost var c := State();
      var peer := GetPeer(id);
      if peer.None? {
        return Failure(NoSuchPeer(id));
      }
      ConnectionProps.RemovePeerFound(c, id);
      peerLog := peerLog + [End(peer.value.handle)];
      peers := Reject(peers, id);
      emitted := emitted + [EmitPeerRemoved(peer.value.id, peer.value.uid)];
      r := Success(peer.value);
    }

    /** Attaches a local stream to every listed peer, in list order. */
    method ConnectStream(s: Value)
      requires Valid()
      modifies this
      ensures Valid() && State() == ConnectionModel.ConnectStream(old(State()), s)
    {
      stream := s;
      var log := peerLog;
      var i := 0;
      while i < |peers|
        invariant 0 <= i <= |peers|
        invariant log == old(peerLog) + StreamCalls(peers[..i], s)
      {
        assert peers[..i + 1][..i] == peers[..i];
        log := log + [AddLocalStream(peers[i].handle, s)];
        i := i + 1;
      }
      assert peers[..i] == peers;
      peerLog := log;
      emitted := emitted + [EmitLocalStreamConnected];
    }

    // -------------------------------------------------------------------------
    // File transfers

    /** The synchronous part of `requestFileTransfer`; `mode` is not a parameter of the source. */
    method RequestFileTransfer(fileId: Value, peer: Peer)
      requires Valid()
      modifies this
      ensures Valid() && State() == ConnectionModel.RequestFileTransfer(old(State()), fileId, peer)
    {
      peerLog := peerLog + [SendSignalling(peer.handle, "requestFileTransfer", Obj(map["fileId" := fileId]))];
      peerLog := peerLog + [AwaitChannelOpen(peer.handle, fileId)];
    }

    /** `attemptResumeFiletransfers`: one request per pending receiver of the peer's uid. */
    method AttemptResumeFiletransfers(peer: Peer)
      requires Valid()
      modifies this
      ensures Valid() && State() == Resume(old(State()), fileTransfers, peer)
    {
      if peer.uid in fileTransfers {
        var receivers := fileTransfers[peer.uid];
        var i := 0;
        while i < |receivers|
          invariant 0 <= i <= |receivers|
          invariant Valid()
          invariant State() == old(State()).(peerCalls := old(peerLog) + ResumeCalls(peer.handle, receivers[..i]))
        {
          assert receivers[..i + 1][..i] == receivers[..i];
          RequestFileTransfer(receivers[i], peer);
          i := i + 1;
        }
        assert receivers[..i] == receivers;
      }
    }

    // -------------------------------------------------------------------------
    // Outbound

    /** `send({type, payload}, {http = true} = {})`. */
    method Send(msg: Value, opts: Value) returns (o: Outcome<Thrown>)
      requires Valid()
      modifies this
      ensures Valid() && (State(), o) == ConnectionModel.Send(old(State()), urls, casing, msg, opts)
    {
      if Nullish(msg) {
        return Fail(NotAnObject);
      }
      var http := HttpOption(opts);
      if http.None? {
        return Fail(NotAnObject);
      }
      var decamelized := casing.decamelizeKeys(Get(msg, "payload"));
      if Truthy(http.value) {
        httpLog := httpLog + [FetchPost(urls.messages, PostBody(Get(msg, "type"), decamelized))];
      } else {
        socketLog := socketLog + [SendFrame(Frame(Get(msg, "type"), decamelized))];
      }
      o := Pass;
    }

    /** `sendEvent(type, data, {http = true} = {})`. */
    method SendEvent(type_: string, data: Value, opts: Value) returns (o: Outcome<Thrown>)
      requires Valid()
      modifies this
      ensures Valid() && (State(), o) == ConnectionModel.SendEvent(old(State()), urls, casing, type_, data, opts)
    {
      var http := HttpOption(opts);
      if http.None? {
        return Fail(NotAnObject);
      }
      o := Send(EventMessage(casing, type_, data), Obj(map["http" := http.value]));
    }

    method RunAction(name: string, data: Value)
      requires Valid()
      modifies this
      ensures Valid() && State() == ConnectionModel.RunAction(old(State()), urls, casing, name, data)
    {
      httpLog := httpLog + [FetchPost(ReplaceFirst(urls.action, ":name", casing.decamelize(name)), casing.decamelizeKeys(data))];
    }

    method InitialJoin(data: Value)
      requires Valid()
      modifies this
      ensures Valid() && State() == ConnectionModel.InitialJoin(old(State()), urls, casing, data)
    {
      httpLog := httpLog + [FetchPost(urls.join, casing.decamelizeKeys(data))];
    }

    method NotifyCreatedRecording(data: Value)
      requires Valid()
      modifies this
      ensures Valid() && State() == ConnectionModel.NotifyCreatedRecording(old(State()), urls, casing, data)
    {
      httpLog := httpLog + [FetchPost(urls.recordings, casing.decamelizeKeys(data))];
    }

    /** `getMessages({until} = {})`, the parameter defaulted as the client's callers need. */
    method GetMessages(opts: Value) returns (o: Outcome<Thrown>)
      requires Valid()
      modifies this
      ensures Valid() && (State(), o) == ConnectionModel.GetMessages(old(State()), urls, opts)
    {
      var args := if opts.Undefined? then Obj(map[]) else opts;
      if Nullish(args) {
        return Fail(NotAnObject);
      }
      var until := Get(args, "until");
      var url := if Truthy(until) then urls.messages + "?until=" + Display(until) else urls.messages;
      httpLog := httpLog + [FetchJson(url)];
      o := Pass;
    }

    // -------------------------------------------------------------------------
    // Inbound: the `messageHandlers` table

    method HandleSignalling(m: Message)
      requires Valid()
      modifies this
      ensures Valid() && State() == ConnectionModel.HandleSignalling(old(State()), m)
    {
      var peer := GetPeer(m.peerId);
      if peer.Some? {
        peerLog := peerLog + [ReceiveSignalling(peer.value.handle, m.payload)];
      }
    }

    method HandleAnnounce(m: Message) returns (o: Outcome<Thrown>)
      requires Valid()
      modifies this
      ensures Valid() && (State(), o) == ConnectionModel.HandleAnnounce(old(State()), fileTransfers, m)
    {
      var data := Prop(m.payload, "peer");
      if data.None? {
        return Fail(NotAnObject);
      }
      var r := AddPeer(data.value, false);
      if r.Failure? {
        return Fail(r.error);
      }
      emitted := emitted + [EmitPeerAnnounce(r.value, m)];
      AttemptResumeFiletransfers(r.value);
      o := Pass;
    }

    method HandleJoin(m: Message) returns (o: Outcome<Thrown>)
      requires Valid()
      modifies this
      ensures Valid() && (State(), o) == ConnectionModel.HandleJoin(old(State()), fileTransfers, m)
    {
      var self := Prop(m.payload, "self");
      if self.None? {
        return Fail(NotAnObject);
      }
      var pid := Prop(self.value, "peerId");
      if pid.None? {
        return Fail(NotAnObject);
      }
      selfPeerId := if Truthy(pid.value) then Some(pid.value) else None;
      var members := Iterate(Get(m.payload, "members"));
      if members.None? {
        return Fail(NotAnObject);
      }
      ghost var start := State();
      var i := 0;
      while i < |members.value|
        invariant 0 <= i <= |members.value|
        invariant Valid()
        invariant (State(), Pass) == JoinMembers(start, fileTransfers, members.value[..i])
      {
        assert members.value[..i + 1][..i] == members.value[..i];
        o := JoinMember(members.value[i]);
        if o.Fail? {
          ConnectionProps.JoinMembersStops(start, fileTransfers, members.value, i + 1);
          return;
        }
        i := i + 1;
      }
      assert members.value[..i] == members.value;
      emitted := emitted + [EmitJoin(m.payload, m)];
      o := Pass;
    }

    /** One pass of the join handler's member loop: a member with a truthy peer id is added and started. */
    method JoinMember(member: Value) returns (o: Outcome<Thrown>)
      requires Valid()
      modifies this
      ensures Valid() && (State(), o) == ConnectionModel.JoinMember(old(State()), fileTransfers, member)
    {
      var memberId := Prop(member, "peerId");
      if memberId.None? {
        return Fail(NotAnObject);
      }
      if Truthy(memberId.value) {
        var r := AddPeer(member, true);
        peerLog := peerLog + [Start(r.value.handle)];
        AttemptResumeFiletransfers(r.value);
      }
      o := Pass;
    }

    method HandleLeave(m: Message) returns (o: Outcome<Thrown>)
      requires Valid()
      modifies this
      ensures Valid() && (State(), o) == ConnectionModel.HandleLeave(old(State()), m)
    {
      var id := Prop(m.payload, "id");
      if id.None? {
        return Fail(NotAnObject);
      }
      var r := RemovePeer(id.value);
      if r.Failure? {
        return Fail(r.error);
      }
      emitted := emitted + [EmitPeerLeave(r.value, m)];
      o := Pass;
    }

    method HandleEvent(m: Message) returns (o: Outcome<Thrown>)
      requires Valid()
      modifies this
      ensures Valid() && (State(), o) == ConnectionModel.HandleEvent(old(State()), m)
    {
      if !IsEcho(selfPeerId, m.peerId) {
        if Nullish(m.payload) {
          return Fail(NotAnObject);
        }
        emitted := emitted + [EmitEvent(Get(m.payload, "type"), Get(m.payload, "data"), m)];
      }
      o := Pass;
    }

    /** Looks the type name up in the handler table; a name with no handler raises. */
    method DispatchMessage(m: Message) returns (o: Outcome<Thrown>)
      requires Valid()
      modifies this
      ensures Valid() && (State(), o) == Dispatch(old(State()), fileTransfers, m)
    {
      if m.typeName == "signalling" {
        HandleSignalling(m);
        o := Pass;
      } else if m.typeName == "announce" {
        o := HandleAnnounce(m);
      } else if m.typeName == "join" {
        o := HandleJoin(m);
      } else if m.typeName == "leave" {
        o := HandleLeave(m);
      } else if m.typeName == "event" {
        o := HandleEvent(m);
      } else {
        o := Fail(UnknownType(m.typeName));
      }
    }

    /** A message from the socket, already decoded by `Message.decode`. */
    method HandleSocketMessage(d: Message) returns (o: Outcome<Thrown>)
      requires Valid()
      modifies this
      ensures Valid() && (State(), o) == ConnectionModel.HandleSocketMessage(old(State()), casing, fileTransfers, d)
    {
      var payload := casing.camelizeKeys(d.payload);
      if d.code == EventCode {
        var typed := SetProp(payload, "type", casing.camelize(Get(payload, "type")));
        if typed.None? {
          return Fail(NotAnObject);
        }
        payload := typed.value;
      }
      var m := d.(payload := payload);
      o := DispatchMessage(m);
      if o.Fail? {
        return;
      }
      if !IsEcho(selfPeerId, m.peerId) {
        emitted := emitted + [EmitMessage(m)];
      }
    }
  }
}

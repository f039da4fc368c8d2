/** Properties of the client's room connection, proved on `ConnectionModel`. */
module ConnectionProps {
  import opened Wrappers
  import opened Values
  import opened Text
  import opened ConnectionModel

  // ---------------------------------------------------------------------------
  // The peer list

  /**
   * `addPeer` on a new id appends exactly one peer at the end; on a listed id it
   * leaves the list as it was. Either way it returns a Peer object that did not
   * exist before, attaches the current stream to it when there is one, emits
   * `peerAdded` for it once, keeps at most one peer per id, and leaves the
   * status, the stream, `selfPeerId`, the socket and the HTTP log alone.
   */
  lemma AddPeerAppendsOrKeeps(c: Conn, data: Value, isInitiator: bool)
    requires Invariant(c) && !Nullish(data)
    ensures var (c', r) := AddPeer(c, data, isInitiator);
      && r == Success(NewPeer(c, data, isInitiator))
      && (forall p :: p in c.peers ==> p.handle != r.value.handle)
      && (FindPeer(c.peers, Get(data, "peerId")).None? ==> c'.peers == c.peers + [r.value])
      && (FindPeer(c.peers, Get(data, "peerId")).Some? ==> c'.peers == c.peers && r.value !in c'.peers)
      && c'.notices == c.notices + [EmitPeerAdded(r.value)]
      && c'.peerCalls == c.peerCalls + (if Truthy(c.stream) then [AddLocalStream(r.value.handle, c.stream)] else [])
      && c'.nextHandle == c.nextHandle + 1
      && SameConnection(c, c')
      && Invariant(c')
  {
    var (c', r) := AddPeer(c, data, isInitiator);
    var peer := NewPeer(c, data, isInitiator);
    forall p | p in c.peers ensures p.handle != peer.handle {
      var k :| 0 <= k < |c.peers| && c.peers[k] == p;
    }
    if FindPeer(c.peers, peer.id).None? {
      forall i, j | 0 <= i < j < |c'.peers| ensures !LooseEq(c'.peers[i].id, c'.peers[j].id) {
        if j == |c.peers| {
          LooseEqIsEquivalence(c.peers[i].id, peer.id, peer.id);
        }
      }
    }
  }

  /** With at most one peer per id, rejecting the id of the peer at `k` removes exactly that entry. */
  lemma {:induction false} RejectRemovesOne(peers: seq<Peer>, id: Value, k: nat)
    requires UniqueIds(peers) && k < |peers| && LooseEq(peers[k].id, id)
    ensures Reject(peers, id) == peers[..k] + peers[k + 1..]
    decreases |peers|
  {
    if k == 0 {
      forall j | 0 <= j < |peers[1..]| ensures !LooseEq(peers[1..][j].id, id) {
        assert peers[1..][j] == peers[j + 1];
        LooseEqIsEquivalence(peers[j + 1].id, id, peers[0].id);
        LooseEqIsEquivalence(peers[0].id, id, id);
      }
      RejectNone(peers[1..], id);
    } else {
      assert !LooseEq(peers[0].id, id) by {
        LooseEqIsEquivalence(peers[0].id, peers[k].id, id);
        LooseEqIsEquivalence(peers[0].id, id, peers[k].id);
        LooseEqIsEquivalence(peers[k].id, id, id);
      }
      UniqueTail(peers);
      RejectRemovesOne(peers[1..], id, k - 1);
      assert Reject(peers, id) == [peers[0]] + Reject(peers[1..], id);
      PutBackHead(peers, k);
    }
  }

  /** Removing entry `k - 1` of the tail and putting the head back removes entry `k`. */
  lemma PutBackHead(peers: seq<Peer>, k: nat)
    requires 0 < k < |peers|
    ensures [peers[0]] + (peers[1..][..k - 1] + peers[1..][k..]) == peers[..k] + peers[k + 1..]
  {
    assert peers[1..][..k - 1] == peers[1..k] && peers[1..][k..] == peers[k + 1..];
    assert [peers[0]] + peers[1..k] == peers[..k];
  }

  /** Rejecting an id that no listed peer has keeps the list. */
  lemma {:induction false} RejectNone(peers: seq<Peer>, id: Value)
    requires forall j :: 0 <= j < |peers| ==> !LooseEq(peers[j].id, id)
    ensures Reject(peers, id) == peers
    decreases |peers|
  {
    if peers != [] {
      RejectNone(peers[1..], id);
    }
  }

  lemma UniqueTail(peers: seq<Peer>)
    requires UniqueIds(peers) && |peers| > 0
    ensures UniqueIds(peers[1..])
  {
    forall i, j | 0 <= i < j < |peers| - 1 ensures !LooseEq(peers[1..][i].id, peers[1..][j].id) {
      assert peers[1..][i] == peers[i + 1] && peers[1..][j] == peers[j + 1];
    }
  }

  /** Removing one entry keeps the others distinct, and their handles below the bound. */
  lemma UniqueWithout(peers: seq<Peer>, k: nat, bound: nat)
    requires UniqueIds(peers) && HandlesBelow(peers, bound) && k < |peers|
    ensures UniqueIds(peers[..k] + peers[k + 1..]) && HandlesBelow(peers[..k] + peers[k + 1..], bound)
  {
    var r := peers[..k] + peers[k + 1..];
    forall i, j | 0 <= i < j < |r| ensures !LooseEq(r[i].id, r[j].id) {
      var i' := if i < k then i else i + 1;
      var j' := if j < k then j else j + 1;
      assert r[i] == peers[i'] && r[j] == peers[j'];
    }
    forall i | 0 <= i < |r| ensures r[i].handle < bound {
      assert r[i] == peers[if i < k then i else i + 1];
    }
  }

  /**
   * `removePeer(id)` raises, changing nothing, exactly when no peer has that id.
   * Otherwise it ends the first peer with that id (the one `getPeer` finds), removes its entry and keeps the others in their
   * order, returns it, and emits `peerRemoved` with its id and uid.
   */
  lemma RemovePeerRemovesOne(c: Conn, id: Value)
    requires Invariant(c)
    ensures var (c', r) := RemovePeer(c, id);
      && (r.Failure? <==> forall j :: 0 <= j < |c.peers| ==> !LooseEq(c.peers[j].id, id))
      && (r.Failure? ==> c' == c && r.error == NoSuchPeer(id))
      && (r.Success? ==> FindPeer(c.peers, id) == Some(r.value) && LooseEq(r.value.id, id))
      && SameConnection(c, c')
      && (r.Success? ==>
            exists k :: 0 <= k < |c.peers| && c.peers[k] == r.value
              && c'.peers == c.peers[..k] + c.peers[k + 1..]
              && c'.peerCalls == c.peerCalls + [End(r.value.handle)]
              && c'.notices == c.notices + [EmitPeerRemoved(r.value.id, r.value.uid)])
      && Invariant(c')
  {
    if FindPeer(c.peers, id).Some? {
      RemovePeerFound(c, id);
    }
  }

  lemma RemovePeerFound(c: Conn, id: Value)
    requires Invariant(c) && FindPeer(c.peers, id).Some?
    ensures var (c', r) := RemovePeer(c, id);
      && r == Success(FindPeer(c.peers, id).value) && LooseEq(r.value.id, id)
      && SameConnection(c, c')
      && (exists k :: 0 <= k < |c.peers| && c.peers[k] == r.value
            && c'.peers == c.peers[..k] + c.peers[k + 1..]
            && c'.peerCalls == c.peerCalls + [End(r.value.handle)]
            && c'.notices == c.notices + [EmitPeerRemoved(r.value.id, r.value.uid)])
      && Invariant(c')
  {
    var p := FindPeer(c.peers, id).value;
    RemovedEntry(c.peers, id, c.nextHandle);
    var c' := c.(peerCalls := c.peerCalls + [End(p.handle)], peers := Reject(c.peers, id),
                 notices := c.notices + [EmitPeerRemoved(p.id, p.uid)]);
    assert RemovePeer(c, id) == (c', Success(p));
  }

  /** The entry `getPeer` finds is the one `_.reject` drops, and the rest stay distinct. */
  lemma RemovedEntry(peers: seq<Peer>, id: Value, bound: nat)
    requires UniqueIds(peers) && HandlesBelow(peers, bound) && FindPeer(peers, id).Some?
    ensures exists k :: 0 <= k < |peers| && peers[k] == FindPeer(peers, id).value
                        && Reject(peers, id) == peers[..k] + peers[k + 1..]
    ensures UniqueIds(Reject(peers, id)) && HandlesBelow(Reject(peers, id), bound)
  {
    var k :| 0 <= k < |peers| && peers[k] == FindPeer(peers, id).value && LooseEq(peers[k].id, id)
             && forall j :: 0 <= j < k ==> !LooseEq(peers[j].id, id);
    RejectRemovesOne(peers, id, k);
    UniqueWithout(peers, k, bound);
  }

  // ---------------------------------------------------------------------------
  // Inbound dispatch

  /** Handlers that are not `join` leave the connection's own status, identity and streams alone. */
  ghost predicate SameConnection(c: Conn, c': Conn) {
    c'.status == c.status && c'.selfPeerId == c.selfPeerId && c'.awaitingOpen == c.awaitingOpen
    && c'.stream == c.stream && c'.socket == c.socket && c'.http == c.http
  }

  /**
   * One member of a `join` payload. A member without a truthy peer id is skipped.
   * Otherwise a new initiator Peer is created (and listed unless its id is already
   * listed), it is started, and the transfers pending for its uid are resumed.
   */
  lemma JoinMemberEffect(c: Conn, transfers: Transfers, member: Value)
    requires Invariant(c)
    ensures var (c', o) := JoinMember(c, transfers, member);
      && (o.Fail? <==> Nullish(member))
      && (o.Fail? || !Truthy(Get(member, "peerId")) ==> c' == c)
      && SameConnection(c, c')
      && Invariant(c')
      && (o.Pass? && Truthy(Get(member, "peerId")) ==>
            var peer := NewPeer(c, member, true);
            && peer.isInitiator
            && c'.peers == (if FindPeer(c.peers, peer.id).Some? then c.peers else c.peers + [peer])
            && c'.notices == c.notices + [EmitPeerAdded(peer)]
            && c'.peerCalls == c.peerCalls
                 + (if Truthy(c.stream) then [AddLocalStream(peer.handle, c.stream)] else [])
                 + [Start(peer.handle)]
                 + (if peer.uid in transfers then ResumeCalls(peer.handle, transfers[peer.uid]) else []))
  {
    if !Nullish(member) && Truthy(Get(member, "peerId")) {
      AddPeerAppendsOrKeeps(c, member, true);
    }
  }

  /**
   * `c'` keeps the peers of `c` first and in order, only appends initiators,
   * keeps one peer per id, emits nothing but `peerAdded`, and leaves the rest of
   * the connection alone.
   */
  ghost predicate AppendsInitiators(c: Conn, c': Conn) {
    && Invariant(c')
    && SameConnection(c, c')
    && |c.peers| <= |c'.peers| && c'.peers[..|c.peers|] == c.peers
    && (forall i :: |c.peers| <= i < |c'.peers| ==> c'.peers[i].isInitiator)
    && OnlyPeerAdded(c.notices, c'.notices)
  }

  /** `after` extends `before` with `peerAdded` notifications only. */
  ghost predicate OnlyPeerAdded(before: seq<Notice>, after: seq<Notice>) {
    && |before| <= |after| && after[..|before|] == before
    && forall i :: |before| <= i < |after| ==> after[i].EmitPeerAdded?
  }

  /** Every visited member with a truthy peer id is listed. */
  ghost predicate MembersListed(members: seq<Value>, peers: seq<Peer>) {
    forall m :: m in members && Truthy(Get(m, "peerId")) ==> FindPeer(peers, Get(m, "peerId")).Some?
  }

  /**
   * What the members loop of `join` guarantees from `c` to `c'` after visiting
   * `members` with outcome `o`: the peers listed before stay first and in order,
   * every new entry is an initiator, every visited member with a truthy peer id
   * is listed, one peer per id is kept, and the loop completes exactly when no
   * member is null.
   */
  ghost predicate JoinedMembers(c: Conn, members: seq<Value>, c': Conn, o: Outcome<Thrown>) {
    && AppendsInitiators(c, c')
    && (o.Pass? ==> MembersListed(members, c'.peers))
    && (o.Pass? <==> forall m :: m in members ==> !Nullish(m))
  }

  lemma {:induction false} JoinMembersEffect(c: Conn, transfers: Transfers, members: seq<Value>)
    requires Invariant(c)
    ensures var (c', o) := JoinMembers(c, transfers, members);
      JoinedMembers(c, members, c', o)
    decreases |members|
  {
    if members != [] {
      var init := members[..|members| - 1];
      var last := members[|members| - 1];
      assert members == init + [last];
      JoinMembersEffect(c, transfers, init);
      var (c1, o1) := JoinMembers(c, transfers, init);
      if o1.Pass? {
        JoinMemberEffect(c1, transfers, last);
        var (c2, o2) := JoinMember(c1, transfers, last);
        AppendsInitiatorsTransitive(c, c1, c2);
        if o2.Pass? {
          JoinMemberListsIt(c1, transfers, init, last);
        }
        assert forall m :: m in init + [last] ==> m in init || m == last;
      } else {
        assert forall m :: m in init ==> m in members;
      }
    }
  }

  lemma AppendsInitiatorsTransitive(c: Conn, c1: Conn, c2: Conn)
    requires AppendsInitiators(c, c1) && AppendsInitiators(c1, c2)
    ensures AppendsInitiators(c, c2)
  {
    assert c2.peers[..|c.peers|] == c1.peers[..|c.peers|];
    assert c2.notices[..|c.notices|] == c1.notices[..|c.notices|];
  }

  /** A member that completes is listed afterwards, and the members listed before stay listed. */
  lemma JoinMemberListsIt(c1: Conn, transfers: Transfers, init: seq<Value>, last: Value)
    requires Invariant(c1) && MembersListed(init, c1.peers)
    requires JoinMember(c1, transfers, last).1.Pass?
    ensures MembersListed(init + [last], JoinMember(c1, transfers, last).0.peers)
  {
    JoinMemberEffect(c1, transfers, last);
    var c2 := JoinMember(c1, transfers, last).0;
    assert c2.peers[..|c1.peers|] == c1.peers;
    forall m | m in init + [last] && Truthy(Get(m, "peerId"))
      ensures FindPeer(c2.peers, Get(m, "peerId")).Some?
    {
      if m == last {
        var peer := NewPeer(c1, last, true);
        if FindPeer(c1.peers, peer.id).None? {
          assert c2.peers[|c2.peers| - 1] == peer;
          LooseEqIsEquivalence(peer.id, peer.id, peer.id);
        } else {
          ListedStaysFound(c1.peers, c2.peers, peer.id);
        }
      } else {
        assert m in init;
        ListedStaysFound(c1.peers, c2.peers, Get(m, "peerId"));
      }
    }
  }

  /** The members of a `join` payload that become Peer objects: those with a truthy peer id, in order. */
  function Candidates(members: seq<Value>): seq<Value> {
    if members == [] then []
    else Candidates(members[..|members| - 1])
         + (if Truthy(Get(members[|members| - 1], "peerId")) then [members[|members| - 1]] else [])
  }

  /** The Peer objects created for them: initiators with consecutive handles from `start`, in member order. */
  function CreatedPeers(start: nat, members: seq<Value>): (r: seq<Peer>)
    ensures |r| == |members|
  {
    seq(|members|, k requires 0 <= k < |members| =>
      Peer(start + k, Get(members[k], "peerId"), Get(members[k], "uid"), Get(members[k], "info"), true))
  }

  /** The peer list after offering it each of `ps` in turn: a peer is appended unless its id is listed. */
  function Listing(peers: seq<Peer>, ps: seq<Peer>): seq<Peer> {
    if ps == [] then peers
    else
      var acc := Listing(peers, ps[..|ps| - 1]);
      if FindPeer(acc, ps[|ps| - 1].id).Some? then acc else acc + [ps[|ps| - 1]]
  }

  /** The calls made on one joined Peer: the stream attached if any, `start()`, then resumption. */
  function MemberCalls(stream: Value, transfers: Transfers, p: Peer): seq<PeerCall> {
    (if Truthy(stream) then [AddLocalStream(p.handle, stream)] else [])
    + [Start(p.handle)]
    + (if p.uid in transfers then ResumeCalls(p.handle, transfers[p.uid]) else [])
  }

  function JoinCalls(stream: Value, transfers: Transfers, ps: seq<Peer>): seq<PeerCall> {
    if ps == [] then []
    else JoinCalls(stream, transfers, ps[..|ps| - 1]) + MemberCalls(stream, transfers, ps[|ps| - 1])
  }

  function AddedNotices(ps: seq<Peer>): (r: seq<Notice>)
    ensures |r| == |ps|
  {
    seq(|ps|, k requires 0 <= k < |ps| => EmitPeerAdded(ps[k]))
  }

  /**
   * From `c` to `c'`, the Peer objects `ps` were created in order, each offered
   * to the list, given the stream, started and resumed, and announced with
   * `peerAdded`, in that order.
   */
  ghost predicate Joined(c: Conn, transfers: Transfers, ps: seq<Peer>, c': Conn) {
    && c'.nextHandle == c.nextHandle + |ps|
    && c'.stream == c.stream
    && c'.peers == Listing(c.peers, ps)
    && c'.peerCalls == c.peerCalls + JoinCalls(c.stream, transfers, ps)
    && c'.notices == c.notices + AddedNotices(ps)
  }

  /**
   * The whole effect of a members loop that completes: one initiator Peer per
   * member with a truthy peer id, with handles in member order, joined in that order.
   */
  ghost predicate JoinedExactly(c: Conn, transfers: Transfers, members: seq<Value>, c': Conn) {
    Joined(c, transfers, CreatedPeers(c.nextHandle, Candidates(members)), c')
  }

  lemma {:induction false} JoinMembersExact(c: Conn, transfers: Transfers, members: seq<Value>)
    ensures var (c', o) := JoinMembers(c, transfers, members);
      o.Pass? ==> JoinedExactly(c, transfers, members, c')
    decreases |members|
  {
    if members == [] {
      assert CreatedPeers(c.nextHandle, Candidates(members)) == [];
    } else {
      var init := members[..|members| - 1];
      var last := members[|members| - 1];
      JoinMembersExact(c, transfers, init);
      var (c1, o1) := JoinMembers(c, transfers, init);
      if o1.Pass? && JoinMember(c1, transfers, last).1.Pass? {
        var ps1 := CreatedPeers(c.nextHandle, Candidates(init));
        if Truthy(Get(last, "peerId")) {
          var p := NewPeer(c1, last, true);
          JoinMemberFields(c1, transfers, last);
          JoinOneMore(c, transfers, c1, JoinMember(c1, transfers, last).0, ps1, p);
          CreatedSnoc(c.nextHandle, Candidates(init), last);
          assert Candidates(members) == Candidates(init) + [last];
        } else {
          assert Candidates(members) == Candidates(init);
        }
      }
    }
  }

  lemma CreatedSnoc(start: nat, cands: seq<Value>, x: Value)
    ensures CreatedPeers(start, cands + [x])
      == CreatedPeers(start, cands) + [Peer(start + |cands|, Get(x, "peerId"), Get(x, "uid"), Get(x, "info"), true)]
  {
  }

  /** One more Peer joined after `ps1` extends the effect by that Peer. */
  lemma JoinOneMore(c: Conn, transfers: Transfers, c1: Conn, c2: Conn, ps1: seq<Peer>, p: Peer)
    requires Joined(c, transfers, ps1, c1)
    requires c2.nextHandle == c1.nextHandle + 1 && c2.stream == c1.stream
    requires c2.peers == (if FindPeer(c1.peers, p.id).Some? then c1.peers else c1.peers + [p])
    requires c2.peerCalls == c1.peerCalls + MemberCalls(c1.stream, transfers, p)
    requires c2.notices == c1.notices + [EmitPeerAdded(p)]
    ensures Joined(c, transfers, ps1 + [p], c2)
  {
    var ps := ps1 + [p];
    assert ps[..|ps| - 1] == ps1;
    assert AddedNotices(ps) == AddedNotices(ps1) + [EmitPeerAdded(p)];
  }

  /** The effect of one member with a truthy peer id, field by field. */
  lemma JoinMemberFields(c1: Conn, transfers: Transfers, last: Value)
    requires Truthy(Get(last, "peerId")) && JoinMember(c1, transfers, last).1.Pass?
    ensures var p := NewPeer(c1, last, true);
      var c2 := JoinMember(c1, transfers, last).0;
      && c2.nextHandle == c1.nextHandle + 1 && c2.stream == c1.stream
      && c2.peers == (if FindPeer(c1.peers, p.id).Some? then c1.peers else c1.peers + [p])
      && c2.peerCalls == c1.peerCalls + MemberCalls(c1.stream, transfers, p)
      && c2.notices == c1.notices + [EmitPeerAdded(p)]
  {
    var p := NewPeer(c1, last, true);
    assert Prop(last, "peerId") == Some(Get(last, "peerId"));
    var (ca, r) := AddPeer(c1, last, true);
    assert r == Success(p);
    assert JoinMember(c1, transfers, last).0 == Resume(ca.(peerCalls := ca.peerCalls + [Start(p.handle)]), transfers, p);
  }

  /** Once a prefix of the members raises, the loop stops: the later members are not visited. */
  lemma {:induction false} JoinMembersStops(c: Conn, transfers: Transfers, members: seq<Value>, k: nat)
    requires k <= |members| && JoinMembers(c, transfers, members[..k]).1.Fail?
    ensures JoinMembers(c, transfers, members) == JoinMembers(c, transfers, members[..k])
    decreases |members|
  {
    if k < |members| {
      var init := members[..|members| - 1];
      assert init[..k] == members[..k];
      JoinMembersStops(c, transfers, init, k);
    } else {
      assert members[..k] == members;
    }
  }

  /** A lookup that succeeds on a list finds the same peer on every extension of it. */
  lemma {:induction false} ListedStaysFound(peers: seq<Peer>, peers': seq<Peer>, id: Value)
    requires |peers| <= |peers'| && peers'[..|peers|] == peers
    requires FindPeer(peers, id).Some?
    ensures FindPeer(peers', id) == FindPeer(peers, id)
  {
    assert peers'[0] == peers[0];
    if !LooseEq(peers[0].id, id) {
      assert peers'[1..][..|peers| - 1] == peers[1..];
      ListedStaysFound(peers[1..], peers'[1..], id);
    }
  }

  /**
   * The `join` handler sets `selfPeerId` from `payload.self.peerId` (as soon as it
   * can read it, even if a later member raises), lists the members, and emits
   * `join` once, last, when no member raised.
   */
  lemma HandleJoinEffect(c: Conn, transfers: Transfers, m: Message)
    requires Invariant(c)
    requires m.payload.Obj? && !Nullish(Get(m.payload, "self"))
    ensures var (c', o) := HandleJoin(c, transfers, m);
      var pid := Get(Get(m.payload, "self"), "peerId");
      && c'.selfPeerId == (if Truthy(pid) then Some(pid) else None)
      && Invariant(c')
      && c'.status == c.status
      && |c.peers| <= |c'.peers| && c'.peers[..|c.peers|] == c.peers
      && (o.Fail? ==> OnlyPeerAdded(c.notices, c'.notices))
      && (o.Pass? ==> |c'.notices| > 0 && c'.notices[|c'.notices| - 1] == EmitJoin(m.payload, m)
                      && OnlyPeerAdded(c.notices, c'.notices[..|c'.notices| - 1]))
      && (o.Pass? <==> Iterate(Get(m.payload, "members")).Some?
                       && forall x :: x in Iterate(Get(m.payload, "members")).value ==> !Nullish(x))
  {
    var pid := Get(Get(m.payload, "self"), "peerId");
    var c1 := c.(selfPeerId := if Truthy(pid) then Some(pid) else None);
    match Iterate(Get(m.payload, "members"))
    case None =>
    case Some(members) =>
      JoinMembersEffect(c1, transfers, members);
  }

  /**
   * A `join` that completes creates, lists, starts and resumes one initiator
   * Peer per member with a truthy peer id, in member order, emits `peerAdded`
   * for each in that order, and emits `join` last.
   */
  lemma HandleJoinExact(c: Conn, transfers: Transfers, m: Message)
    ensures var (c', o) := HandleJoin(c, transfers, m);
      o.Pass? ==>
        && Iterate(Get(m.payload, "members")).Some?
        && var ps := CreatedPeers(c.nextHandle, Candidates(Iterate(Get(m.payload, "members")).value));
           && c'.peers == Listing(c.peers, ps)
           && c'.peerCalls == c.peerCalls + JoinCalls(c.stream, transfers, ps)
           && c'.notices == c.notices + AddedNotices(ps) + [EmitJoin(m.payload, m)]
  {
    match Prop(m.payload, "self")
    case None =>
    case Some(self) =>
      match Prop(self, "peerId")
      case None =>
      case Some(pid) =>
        var c1 := c.(selfPeerId := if Truthy(pid) then Some(pid) else None);
        match Iterate(Get(m.payload, "members"))
        case None =>
        case Some(members) => JoinMembersExact(c1, transfers, members);
  }

  /** No handler but `join` changes `selfPeerId`, the status, the stream or the outbound logs. */
  lemma DispatchKeepsSelf(c: Conn, transfers: Transfers, m: Message)
    requires Invariant(c) && m.typeName != "join"
    ensures var (c', o) := Dispatch(c, transfers, m);
      SameConnection(c, c') && Invariant(c')
  {
    if m.typeName == "announce" {
      AnnounceKeepsSelf(c, transfers, m);
    } else if m.typeName == "leave" {
      LeaveKeepsSelf(c, m);
    }
  }

  lemma AnnounceKeepsSelf(c: Conn, transfers: Transfers, m: Message)
    requires Invariant(c)
    ensures var (c', o) := HandleAnnounce(c, transfers, m);
      SameConnection(c, c') && Invariant(c')
  {
    match Prop(m.payload, "peer")
    case None =>
    case Some(data) =>
      if !Nullish(data) { AddPeerAppendsOrKeeps(c, data, false); }
  }

  lemma LeaveKeepsSelf(c: Conn, m: Message)
    requires Invariant(c)
    ensures var (c', o) := HandleLeave(c, m);
      SameConnection(c, c') && Invariant(c')
  {
    match Prop(m.payload, "id")
    case None =>
    case Some(id) => RemovePeerRemovesOne(c, id);
  }

  /**
   * Echo suppression for events: the `event.<type>` and `message` notifications
   * are both withheld exactly when `selfPeerId` is set and equals the message's
   * peer id; otherwise the typed notification comes first and `message` second.
   */
  lemma EventEchoSuppressed(c: Conn, casing: Casing, transfers: Transfers, d: Message)
    requires d.typeName == "event" && d.code == EventCode && casing.camelizeKeys(d.payload).Obj?
    ensures var (c', o) := HandleSocketMessage(c, casing, transfers, d);
      var m := Camelized(casing, d).value;
      && o.Pass?
      && (IsEcho(c.selfPeerId, d.peerId) ==> c' == c)
      && (!IsEcho(c.selfPeerId, d.peerId) ==>
            c' == c.(notices := c.notices + [EmitEvent(Get(m.payload, "type"), Get(m.payload, "data"), m),
                                             EmitMessage(m)]))
  {
  }

  /**
   * For every message type but `join`: the type's handler runs first, and the
   * `message` notification follows exactly when the handler did not raise and the
   * message is not an echo of this client's own peer id.
   */
  lemma MessageNotifiedAfterHandler(c: Conn, casing: Casing, transfers: Transfers, d: Message)
    requires Invariant(c) && d.typeName != "join" && Camelized(casing, d).Some?
    ensures var (c', o) := HandleSocketMessage(c, casing, transfers, d);
      var m := Camelized(casing, d).value;
      var (c1, o1) := Dispatch(c, transfers, m);
      && o == o1
      && c' == (if o.Pass? && !IsEcho(c.selfPeerId, d.peerId) then c1.(notices := c1.notices + [EmitMessage(m)]) else c1)
  {
    DispatchKeepsSelf(c, transfers, Camelized(casing, d).value);
  }

  /** A type name outside the five handlers raises, and nothing changes or is emitted. */
  lemma UnknownTypeRaises(c: Conn, casing: Casing, transfers: Transfers, d: Message)
    requires d.typeName !in {"signalling", "announce", "join", "leave", "event"}
    requires Camelized(casing, d).Some?
    ensures HandleSocketMessage(c, casing, transfers, d) == (c, Fail(UnknownType(d.typeName)))
  {
  }

  /**
   * A `signalling` message reaches the listed peer with its id, payload unchanged;
   * for a peer that is not listed it is dropped without raising and the peer list
   * is unchanged.
   */
  lemma SignallingForwardedOrDropped(c: Conn, casing: Casing, transfers: Transfers, d: Message)
    requires d.typeName == "signalling" && d.code != EventCode
    ensures var (c', o) := HandleSocketMessage(c, casing, transfers, d);
      var payload := casing.camelizeKeys(d.payload);
      && o.Pass? && c'.peers == c.peers
      && (FindPeer(c.peers, d.peerId).None? ==> c'.peerCalls == c.peerCalls)
      && (FindPeer(c.peers, d.peerId).Some? ==>
            c'.peerCalls == c.peerCalls + [ReceiveSignalling(FindPeer(c.peers, d.peerId).value.handle, payload)])
  {
  }

  /**
   * The `announce` handler appends the announced peer at the end when its id is
   * not listed, and keeps the list as it was when it is; either way the peer is
   * listed afterwards. It emits `peerAdded` then `peerAnnounce`, attaches the
   * current stream, and re-requests the transfers pending for the peer's `uid`.
   */
  lemma AnnounceListsPeer(c: Conn, transfers: Transfers, m: Message)
    requires Invariant(c) && m.payload.Obj? && !Nullish(Get(m.payload, "peer"))
    ensures var (c1, o1) := HandleAnnounce(c, transfers, m);
      var peer := NewPeer(c, Get(m.payload, "peer"), false);
      && o1.Pass? && Invariant(c1) && SameConnection(c, c1)
      && FindPeer(c1.peers, peer.id).Some?
      && (FindPeer(c.peers, peer.id).None? ==> c1.peers == c.peers + [peer])
      && (FindPeer(c.peers, peer.id).Some? ==> c1.peers == c.peers)
      && c1.notices == c.notices + [EmitPeerAdded(peer), EmitPeerAnnounce(peer, m)]
      && c1.peerCalls == c.peerCalls
           + (if Truthy(c.stream) then [AddLocalStream(peer.handle, c.stream)] else [])
           + (if peer.uid in transfers then ResumeCalls(peer.handle, transfers[peer.uid]) else [])
      && c1.nextHandle == c.nextHandle + 1
  {
    var data := Get(m.payload, "peer");
    AddPeerAppendsOrKeeps(c, data, false);
    var c1 := HandleAnnounce(c, transfers, m).0;
    var peer := NewPeer(c, data, false);
    if FindPeer(c.peers, peer.id).None? {
      assert c1.peers[|c1.peers| - 1] == peer;
      LooseEqIsEquivalence(peer.id, peer.id, peer.id);
    }
  }

  /**
   * Announcing the same peer twice keeps a single entry for it: the second Peer
   * object is announced but not listed.
   */
  lemma DuplicateAnnounceKeepsOneEntry(c: Conn, transfers: Transfers, m: Message)
    requires Invariant(c) && m.payload.Obj? && !Nullish(Get(m.payload, "peer"))
    ensures var (c1, o1) := HandleAnnounce(c, transfers, m);
      var (c2, o2) := HandleAnnounce(c1, transfers, m);
      var p1 := NewPeer(c, Get(m.payload, "peer"), false);
      var p2 := NewPeer(c1, Get(m.payload, "peer"), false);
      && o1.Pass? && o2.Pass?
      && c2.peers == c1.peers && p2 !in c2.peers
      && FindPeer(c2.peers, p1.id).Some?
      && c2.notices == c.notices + [EmitPeerAdded(p1), EmitPeerAnnounce(p1, m), EmitPeerAdded(p2), EmitPeerAnnounce(p2, m)]
      && Invariant(c2)
  {
    AnnounceListsPeer(c, transfers, m);
    var c1 := HandleAnnounce(c, transfers, m).0;
    AnnounceListsPeer(c1, transfers, m);
    AddPeerAppendsOrKeeps(c1, Get(m.payload, "peer"), false);
  }

  // ---------------------------------------------------------------------------
  // File transfers

  /**
   * Resumption issues one `requestFileTransfer` per pending file id, in order:
   * the request signal for file `i`, then the wait for its channel.
   */
  lemma {:induction false} ResumeCallsInOrder(handle: nat, fileIds: seq<Value>)
    ensures |ResumeCalls(handle, fileIds)| == 2 * |fileIds|
    ensures forall i :: 0 <= i < |fileIds| ==>
      && ResumeCalls(handle, fileIds)[2 * i] == SendSignalling(handle, "requestFileTransfer", Obj(map["fileId" := fileIds[i]]))
      && ResumeCalls(handle, fileIds)[2 * i + 1] == AwaitChannelOpen(handle, fileIds[i])
    decreases |fileIds|
  {
    if fileIds != [] {
      var init := fileIds[..|fileIds| - 1];
      ResumeCallsInOrder(handle, init);
      forall i | 0 <= i < |init| ensures init[i] == fileIds[i] {}
    }
  }

  /** The file ids whose transfer channel a sequence of peer calls waits for, in order. */
  function AwaitedFiles(calls: seq<PeerCall>): seq<Value> {
    if calls == [] then []
    else AwaitedFiles(calls[..|calls| - 1])
         + (if calls[|calls| - 1].AwaitChannelOpen? then [calls[|calls| - 1].fileId] else [])
  }

  lemma {:induction false} AwaitedFilesAppend(a: seq<PeerCall>, b: seq<PeerCall>)
    ensures AwaitedFiles(a + b) == AwaitedFiles(a) + AwaitedFiles(b)
    decreases |b|
  {
    if b == [] {
      assert a + b == a;
    } else {
      var b' := b[..|b| - 1];
      assert (a + b)[..|a + b| - 1] == a + b';
      assert (a + b)[|a + b| - 1] == b[|b| - 1];
      AwaitedFilesAppend(a, b');
    }
  }

  /** Resuming a list of file ids waits for exactly those ids, in order, all on the one peer. */
  lemma {:induction false} ResumeCallsAwait(handle: nat, fileIds: seq<Value>)
    ensures AwaitedFiles(ResumeCalls(handle, fileIds)) == fileIds
    ensures forall i :: 0 <= i < |ResumeCalls(handle, fileIds)| ==> ResumeCalls(handle, fileIds)[i].peer == handle
    decreases |fileIds|
  {
    if fileIds != [] {
      var init := fileIds[..|fileIds| - 1];
      var last := fileIds[|fileIds| - 1];
      ResumeCallsAwait(handle, init);
      AwaitedFilesAppend(ResumeCalls(handle, init), RequestCalls(handle, last));
      RequestAwaits(handle, last);
      assert init + [last] == fileIds;
    }
  }

  lemma RequestAwaits(handle: nat, fileId: Value)
    ensures AwaitedFiles(RequestCalls(handle, fileId)) == [fileId]
  {
    var first := SendSignalling(handle, "requestFileTransfer", Obj(map["fileId" := fileId]));
    var rc := RequestCalls(handle, fileId);
    assert rc == [first, AwaitChannelOpen(handle, fileId)];
    assert rc[..|rc| - 1] == [first];
    assert AwaitedFiles([first]) == [] by {
      assert [first][..0] == [];
    }
  }

  /**
   * What is resumed is keyed by the peer's stable `uid`: the file ids waited for
   * are exactly those pending for that uid, in order, whatever the peer's
   * transient id is, and every call goes to that Peer object.
   */
  lemma ResumeKeyedByUid(c: Conn, transfers: Transfers, p: Peer)
    ensures var c' := Resume(c, transfers, p);
      && |c.peerCalls| <= |c'.peerCalls| && c'.peerCalls[..|c.peerCalls|] == c.peerCalls
      && AwaitedFiles(c'.peerCalls[|c.peerCalls|..]) == (if p.uid in transfers then transfers[p.uid] else [])
      && (forall i :: |c.peerCalls| <= i < |c'.peerCalls| ==> c'.peerCalls[i].peer == p.handle)
  {
    var c' := Resume(c, transfers, p);
    if p.uid in transfers {
      ResumeCallsAwait(p.handle, transfers[p.uid]);
      assert c'.peerCalls[|c.peerCalls|..] == ResumeCalls(p.handle, transfers[p.uid]);
    } else {
      assert c'.peerCalls[|c.peerCalls|..] == [];
    }
  }

  // ---------------------------------------------------------------------------
  // Outbound

  /**
   * `runAction` posts to the action URL with its first `:name` replaced by the
   * decamelized action name, `$` patterns in that name expanded as `replace`
   * expands them; a URL without `:name` is used as it is.
   */
  lemma RunActionUrl(c: Conn, urls: Urls, casing: Casing, name: string, data: Value)
    ensures var url := urls.action;
      var n := casing.decamelize(name);
      var body := casing.decamelizeKeys(data);
      && (IndexOf(url, ":name").None? ==> RunAction(c, urls, casing, name, data).http == c.http + [FetchPost(url, body)])
      && (IndexOf(url, ":name").Some? ==>
            var i := IndexOf(url, ":name").value;
            && RunAction(c, urls, casing, name, data).http ==
                 c.http + [FetchPost(url[..i] + Substitute(n, ":name", url[..i], url[i + 5..]) + url[i + 5..], body)]
            && ('$' !in n ==>
                 RunAction(c, urls, casing, name, data).http == c.http + [FetchPost(url[..i] + n + url[i + 5..], body)]))
  {
    var n := casing.decamelize(name);
    if IndexOf(urls.action, ":name").None? {
      ReplaceFirstNone(urls.action, ":name", n);
    } else {
      ReplaceFirstSplices(urls.action, ":name", n);
      if '$' !in n {
        ReplaceFirstLiteral(urls.action, ":name", n);
      }
    }
  }

  /**
   * `send` posts over HTTP unless the `http` option is given and falsy; with a
   * falsy option it writes one socket frame. A nullish message or a `null`
   * options argument raises and sends nothing.
   */
  lemma SendRoutes(c: Conn, urls: Urls, casing: Casing, msg: Value, opts: Value)
    ensures var (c', o) := Send(c, urls, casing, msg, opts);
      var http := Get(opts, "http");
      var body := casing.decamelizeKeys(Get(msg, "payload"));
      && (o.Fail? <==> Nullish(msg) || opts.Null?)
      && (o.Fail? ==> c' == c)
      && (o.Pass? && (http.Undefined? || Truthy(http)) ==>
            c' == c.(http := c.http + [FetchPost(urls.messages, PostBody(Get(msg, "type"), body))]))
      && (o.Pass? && !http.Undefined? && !Truthy(http) ==>
            c' == c.(socket := c.socket + [SendFrame(Frame(Get(msg, "type"), body))]))
  {
  }

  /** `sendEvent` behaves as `send` of the event message with the same options. */
  lemma SendEventIsSend(c: Conn, urls: Urls, casing: Casing, type_: string, data: Value, opts: Value)
    ensures SendEvent(c, urls, casing, type_, data, opts) == Send(c, urls, casing, EventMessage(casing, type_, data), opts)
  {
    match HttpOption(opts)
    case None =>
    case Some(http) =>
      assert HttpOption(Obj(map["http" := http])) == Some(http);
  }

  /** A positive numeric `until` bound is carried in the query string and reads back as the same number. */
  lemma UntilReadsBack(base: string, n: nat)
    requires n > 0
    ensures var url := MessagesUrl(base, Num(n));
      && url[..|base| + 7] == base + "?until="
      && ParseNat(url[|base| + 7..]) == n
  {
    NatToStringRoundTrip(n);
    var url := MessagesUrl(base, Num(n));
    assert url[|base| + 7..] == NatToString(n);
  }

  /** As written, `getMessages()` without an argument raises before fetching anything. */
  lemma GetMessagesWithoutArgumentRaises(c: Conn, urls: Urls)
    ensures GetMessagesAsWritten(c, urls, Undefined) == (c, Fail(NotAnObject))
  {
  }

  /**
   * With the parameter defaulted, `getMessages()` fetches the unbounded history,
   * and every call the written version accepts behaves as before.
   */
  lemma GetMessagesDefaulted(c: Conn, urls: Urls, opts: Value)
    ensures GetMessages(c, urls, Undefined) == (c.(http := c.http + [FetchJson(urls.messages)]), Pass)
    ensures GetMessagesAsWritten(c, urls, opts).1.Pass? ==> GetMessages(c, urls, opts) == GetMessagesAsWritten(c, urls, opts)
    ensures GetMessages(c, urls, opts).1.Fail? <==> opts.Null?
  {
  }

  // ---------------------------------------------------------------------------
  // Status and runs

  function StatusRank(s: Status): nat {
    match s
    case Disconnected => 0
    case Connecting => 1
    case Connected => 2
  }

  /**
   * Only `connect()` on a disconnected connection moves it to `connecting`, and
   * only the socket's `open` event, when `connect()` is waiting for it, moves it
   * to `connected`; every other input keeps the status. Only a `join` message
   * changes `selfPeerId`. Every input keeps at most one peer per id.
   */
  lemma StepEffect(env: Env, c: Conn, input: Input)
    requires Invariant(c)
    ensures var c' := Step(env, c, input).0;
      && Invariant(c')
      && c'.status == (
           if input.ConnectCall? && c.status == Disconnected then Connecting
           else if input.SocketOpen? && c.awaitingOpen then Connected
           else c.status)
      && (c'.selfPeerId != c.selfPeerId ==> input.SocketMessage? && input.d.typeName == "join")
  {
    match input
    case SocketMessage(d) => SocketMessageEffect(c, env.casing, env.transfers, d);
    case AddPeerCall(data, isInitiator) =>
      if !Nullish(data) { AddPeerAppendsOrKeeps(c, data, isInitiator); }
    case RemovePeerCall(id) => RemovePeerRemovesOne(c, id);
    case _ =>
  }

  /** A handler keeps the status and one peer per id; only the join handler changes `selfPeerId`. */
  lemma DispatchEffect(c: Conn, transfers: Transfers, m: Message)
    requires Invariant(c)
    ensures var c' := Dispatch(c, transfers, m).0;
      && Invariant(c')
      && c'.status == c.status
      && (c'.selfPeerId != c.selfPeerId ==> m.typeName == "join")
  {
    if m.typeName == "join" {
      if m.payload.Obj? && !Nullish(Get(m.payload, "self")) {
        HandleJoinEffect(c, transfers, m);
      }
    } else {
      DispatchKeepsSelf(c, transfers, m);
    }
  }

  /** A socket message keeps the status and one peer per id; only a join message changes `selfPeerId`. */
  lemma SocketMessageEffect(c: Conn, casing: Casing, transfers: Transfers, d: Message)
    requires Invariant(c)
    ensures var c' := HandleSocketMessage(c, casing, transfers, d).0;
      && Invariant(c')
      && c'.status == c.status
      && (c'.selfPeerId != c.selfPeerId ==> d.typeName == "join")
  {
    match Camelized(casing, d)
    case None =>
    case Some(m) => DispatchEffect(c, transfers, m);
  }

  /** Over any run, the status never moves backwards and at most one peer per id is kept. */
  lemma {:induction false} RunKeepsInvariant(env: Env, c: Conn, inputs: seq<Input>)
    requires Invariant(c)
    ensures Invariant(Run(env, c, inputs))
    ensures StatusRank(Run(env, c, inputs).status) >= StatusRank(c.status)
    decreases |inputs|
  {
    if inputs != [] {
      StepEffect(env, c, inputs[0]);
      RunKeepsInvariant(env, Step(env, c, inputs[0]).0, inputs[1..]);
    }
  }

  /** The connection starts disconnected with no peers, so every run from the start keeps one peer per id. */
  lemma RunFromInitial(env: Env, inputs: seq<Input>)
    ensures UniqueIds(Run(env, Initial(), inputs).peers)
  {
    RunKeepsInvariant(env, Initial(), inputs);
  }
}

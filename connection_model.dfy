/**
 * The client's room connection (`RoomConnection`, client/app/rooms/connection.js)
 * as functions over its state. Every collaborator is a log: the socket's calls,
 * the HTTP helper's requests, the calls made on Peer objects, and the
 * notifications emitted to listeners. The class `Connection.RoomConnection`
 * updates the same state in place and is proved against these functions.
 */
module ConnectionModel {
  import opened Wrappers
  import opened Values
  import opened Text

  datatype Status = Disconnected | Connecting | Connected

  /** A Peer object. `handle` stands for the object's identity. */
  datatype Peer = Peer(handle: nat, id: Value, uid: Value, info: Value, isInitiator: bool)

  /**
   * An inbound message after `Message.decode`: its wire type code, its type name,
   * its payload and the id of the peer it came from.
   */
  datatype Message = Message(code: string, typeName: string, payload: Value, peerId: Value)

  /** What the client raises; in JavaScript each of these is a TypeError. */
  datatype Thrown =
    | UnknownType(typeName: string)  // `this.messageHandlers[name]` is undefined
    | NoSuchPeer(id: Value)           // `peer.end()` on the undefined result of `getPeer`
    | NotAnObject                     // a property read on null/undefined, or a bad payload

  datatype SocketCall = Open | SendFrame(frame: Value)

  datatype HttpCall = FetchPost(url: string, body: Value) | FetchJson(url: string)

  datatype PeerCall =
    | Start(peer: nat)
    | End(peer: nat)
    | ReceiveSignalling(peer: nat, payload: Value)
    | SendSignalling(peer: nat, name: string, payload: Value)
    | AwaitChannelOpen(peer: nat, fileId: Value)
    | AddLocalStream(peer: nat, stream: Value)

  /** The notifications raised to listeners, one constructor per event name. */
  datatype Notice =
    | EmitConnecting
    | EmitConnect
    | EmitJoin(payload: Value, message: Message)
    | EmitPeerAnnounce(peer: Peer, message: Message)
    | EmitPeerAdded(peer: Peer)
    | EmitPeerLeave(peer: Peer, message: Message)
    | EmitPeerRemoved(peerId: Value, uid: Value)
    | EmitMessage(message: Message)
    | EmitEvent(eventType: Value, data: Value, message: Message)
    | EmitLocalStreamConnected

  datatype Urls = Urls(messages: string, action: string, join: string, recordings: string)

  /** The casing helpers of lib/util, which are not part of this model. */
  datatype Casing = Casing(
    camelize: Value -> Value,
    decamelize: string -> string,
    camelizeKeys: Value -> Value,
    decamelizeKeys: Value -> Value)

  /**
   * What `FileTransferManager.receiversForUid` answers: the file ids of the
   * pending receivers of each stable peer identity.
   */
  type Transfers = map<Value, seq<Value>>

  /** The connection's state, including everything it has done to its collaborators. */
  datatype Conn = Conn(
    status: Status,
    stream: Value,
    peers: seq<Peer>,
    selfPeerId: Option<Value>,
    awaitingOpen: bool,      // a one-shot 'open' listener is registered on the socket
    nextHandle: nat,         // identity of the next Peer object created
    socket: seq<SocketCall>,
    http: seq<HttpCall>,
    peerCalls: seq<PeerCall>,
    notices: seq<Notice>)

  /** The wire code of event messages (`MESSAGE_TYPES.EVENT`). */
  const EventCode := "e"

  function Initial(): Conn {
    Conn(Disconnected, Null, [], None, false, 0, [], [], [], [])
  }

  // ---------------------------------------------------------------------------
  // Invariants

  /** At most one peer per id. */
  ghost predicate UniqueIds(peers: seq<Peer>) {
    forall i, j :: 0 <= i < j < |peers| ==> !LooseEq(peers[i].id, peers[j].id)
  }

  /** Every listed Peer object was created before the next one to be created. */
  ghost predicate HandlesBelow(peers: seq<Peer>, next: nat) {
    forall i :: 0 <= i < |peers| ==> peers[i].handle < next
  }

  ghost predicate Invariant(c: Conn) {
    UniqueIds(c.peers) && HandlesBelow(c.peers, c.nextHandle)
  }

  // ---------------------------------------------------------------------------
  // Status

  /** `connect()`: only a disconnected connection starts connecting. */
  function Connect(c: Conn): Conn {
    if c.status == Disconnected then
      c.(status := Connecting, awaitingOpen := true, socket := c.socket + [Open],
         notices := c.notices + [EmitConnecting])
    else c
  }

  /** `onConnect()`. */
  function OnConnect(c: Conn): Conn {
    c.(status := Connected, notices := c.notices + [EmitConnect])
  }

  /** The socket's 'open' event: it runs the one-shot listener `connect` registered. */
  function SocketOpened(c: Conn): Conn {
    if c.awaitingOpen then OnConnect(c.(awaitingOpen := false)) else c
  }

  // ---------------------------------------------------------------------------
  // The peer list

  /** `getPeer(id)`: the first listed peer whose id equals `id`. */
  function FindPeer(peers: seq<Peer>, id: Value): (r: Option<Peer>)
    ensures r.Some? ==> exists k :: 0 <= k < |peers| && peers[k] == r.value && LooseEq(r.value.id, id)
                          && forall j :: 0 <= j < k ==> !LooseEq(peers[j].id, id)
    ensures r.None? ==> forall j :: 0 <= j < |peers| ==> !LooseEq(peers[j].id, id)
  {
    if peers == [] then None
    else if LooseEq(peers[0].id, id) then Some(peers[0])
    else
      var r := FindPeer(peers[1..], id);
      assert r.Some? ==> forall j :: 1 <= j < |peers| ==> peers[1..][j - 1] == peers[j];
      r
  }

  /** `_.reject(peers, p => p.id == id)`: the peers whose id differs, in their order. */
  function Reject(peers: seq<Peer>, id: Value): (r: seq<Peer>)
    ensures |r| <= |peers|
    ensures forall p :: p in r <==> p in peers && !LooseEq(p.id, id)
  {
    if peers == [] then []
    else if LooseEq(peers[0].id, id) then Reject(peers[1..], id)
    else [peers[0]] + Reject(peers[1..], id)
  }

  /** The Peer object `new Peer(...)` builds from the server's description `data`. */
  function NewPeer(c: Conn, data: Value, isInitiator: bool): Peer {
    Peer(c.nextHandle, Get(data, "peerId"), Get(data, "uid"), Get(data, "info"), isInitiator)
  }

  /**
   * `addPeer(data, {isInitiator})`. The new Peer is appended only when no listed
   * peer has its id; otherwise the list keeps its old entry and the new object is
   * returned (and announced) without being listed.
   */
  function AddPeer(c: Conn, data: Value, isInitiator: bool): (Conn, Result<Peer, Thrown>) {
    if Nullish(data) then (c, Failure(NotAnObject))
    else
      var peer := NewPeer(c, data, isInitiator);
      var calls := if Truthy(c.stream) then [AddLocalStream(peer.handle, c.stream)] else [];
      var peers := if FindPeer(c.peers, peer.id).Some? then c.peers else c.peers + [peer];
      (c.(nextHandle := c.nextHandle + 1, peerCalls := c.peerCalls + calls, peers := peers,
          notices := c.notices + [EmitPeerAdded(peer)]),
       Success(peer))
  }

  /** `removePeer(id)`: raises when no peer has that id. */
  function RemovePeer(c: Conn, id: Value): (Conn, Result<Peer, Thrown>) {
    match FindPeer(c.peers, id)
    case None => (c, Failure(NoSuchPeer(id)))
    case Some(p) =>
      (c.(peerCalls := c.peerCalls + [End(p.handle)], peers := Reject(c.peers, id),
          notices := c.notices + [EmitPeerRemoved(p.id, p.uid)]),
       Success(p))
  }

  /** The calls `connectStream` makes: the stream is attached to every listed peer, in order. */
  function StreamCalls(peers: seq<Peer>, stream: Value): (r: seq<PeerCall>)
    ensures |r| == |peers|
    ensures forall i :: 0 <= i < |peers| ==> r[i] == AddLocalStream(peers[i].handle, stream)
  {
    if peers == [] then []
    else StreamCalls(peers[..|peers| - 1], stream) + [AddLocalStream(peers[|peers| - 1].handle, stream)]
  }

  /** `connectStream(stream)`. */
  function ConnectStream(c: Conn, stream: Value): Conn {
    c.(stream := stream, peerCalls := c.peerCalls + StreamCalls(c.peers, stream),
       notices := c.notices + [EmitLocalStreamConnected])
  }

  // ---------------------------------------------------------------------------
  // File transfers

  /** The synchronous calls of `requestFileTransfer(fileId, peer)`. */
  function RequestCalls(handle: nat, fileId: Value): seq<PeerCall> {
    [SendSignalling(handle, "requestFileTransfer", Obj(map["fileId" := fileId])),
     AwaitChannelOpen(handle, fileId)]
  }

  function RequestFileTransfer(c: Conn, fileId: Value, peer: Peer): Conn {
    c.(peerCalls := c.peerCalls + RequestCalls(peer.handle, fileId))
  }

  /** The calls of one `requestFileTransfer` per file id, in order. */
  function ResumeCalls(handle: nat, fileIds: seq<Value>): seq<PeerCall> {
    if fileIds == [] then []
    else ResumeCalls(handle, fileIds[..|fileIds| - 1]) + RequestCalls(handle, fileIds[|fileIds| - 1])
  }

  /** `attemptResumeFiletransfers(peer)`: looks the receivers up by the peer's stable `uid`. */
  function Resume(c: Conn, transfers: Transfers, peer: Peer): Conn {
    if peer.uid in transfers then c.(peerCalls := c.peerCalls + ResumeCalls(peer.handle, transfers[peer.uid]))
    else c
  }

  // ---------------------------------------------------------------------------
  // Outbound

  /** The frame `send` writes to the socket, and the body it posts over HTTP. */
  function Frame(type_: Value, payload: Value): Value {
    Obj(map["t" := type_, "p" := payload])
  }

  function PostBody(type_: Value, payload: Value): Value {
    Obj(map["type" := type_, "payload" := payload])
  }

  /**
   * The `http` option after the destructuring `{http = true} = {}`: a missing
   * options argument or a missing (undefined) `http` both mean `true`; a `null`
   * options argument cannot be destructured and raises (`None`).
   */
  function HttpOption(opts: Value): Option<Value> {
    if opts.Null? then None
    else if Get(opts, "http").Undefined? then Some(Bool(true))
    else Some(Get(opts, "http"))
  }

  /**
   * `send({type, payload}, {http = true} = {})`: a truthy `http` posts over HTTP,
   * a falsy one writes a socket frame. A nullish message or a `null` options
   * argument raises while the parameters are destructured, before anything is sent.
   */
  function Send(c: Conn, urls: Urls, casing: Casing, msg: Value, opts: Value): (Conn, Outcome<Thrown>) {
    if Nullish(msg) then (c, Fail(NotAnObject))
    else
      match HttpOption(opts)
      case None => (c, Fail(NotAnObject))
      case Some(http) =>
        var decamelized := casing.decamelizeKeys(Get(msg, "payload"));
        if Truthy(http) then (c.(http := c.http + [FetchPost(urls.messages, PostBody(Get(msg, "type"), decamelized))]), Pass)
        else (c.(socket := c.socket + [SendFrame(Frame(Get(msg, "type"), decamelized))]), Pass)
  }

  /** The payload of an event message: its decamelized sub-type and its data. */
  function EventPayload(casing: Casing, type_: string, data: Value): Value {
    Obj(map["type" := Str(casing.decamelize(type_)), "data" := data])
  }

  /** The message `sendEvent` hands to `send`. */
  function EventMessage(casing: Casing, type_: string, data: Value): Value {
    Obj(map["type" := Str(EventCode), "payload" := EventPayload(casing, type_, data)])
  }

  /**
   * `sendEvent(type, data, {http = true} = {})`: the option is resolved here and
   * passed on to `send` explicitly.
   */
  function SendEvent(c: Conn, urls: Urls, casing: Casing, type_: string, data: Value, opts: Value): (Conn, Outcome<Thrown>) {
    match HttpOption(opts)
    case None => (c, Fail(NotAnObject))
    case Some(http) => Send(c, urls, casing, EventMessage(casing, type_, data), Obj(map["http" := http]))
  }

  /** `runAction(name, data)`: posts to the action URL with `:name` filled in. */
  function RunAction(c: Conn, urls: Urls, casing: Casing, name: string, data: Value): Conn {
    c.(http := c.http + [FetchPost(ReplaceFirst(urls.action, ":name", casing.decamelize(name)),
                                   casing.decamelizeKeys(data))])
  }

  /** `initialJoin(data)`. */
  function InitialJoin(c: Conn, urls: Urls, casing: Casing, data: Value): Conn {
    c.(http := c.http + [FetchPost(urls.join, casing.decamelizeKeys(data))])
  }

  /** `notifyCreatedRecording(data)`. */
  function NotifyCreatedRecording(c: Conn, urls: Urls, casing: Casing, data: Value): Conn {
    c.(http := c.http + [FetchPost(urls.recordings, casing.decamelizeKeys(data))])
  }

  /** The messages URL, bounded by `until` when it is truthy. */
  function MessagesUrl(base: string, until: Value): string {
    if Truthy(until) then base + "?until=" + Display(until) else base
  }

  /**
   * `getMessages({until})` as written: the parameter is destructured with no
   * default, so a call without an argument (or with `null`) raises.
   */
  function GetMessagesAsWritten(c: Conn, urls: Urls, opts: Value): (Conn, Outcome<Thrown>) {
    if Nullish(opts) then (c, Fail(NotAnObject))
    else (c.(http := c.http + [FetchJson(MessagesUrl(urls.messages, Get(opts, "until")))]), Pass)
  }

  /**
   * `getMessages({until} = {})`: a missing argument stands for no bound, which is
   * how the client's own tests call it.
   */
  function GetMessages(c: Conn, urls: Urls, opts: Value): (Conn, Outcome<Thrown>) {
    GetMessagesAsWritten(c, urls, if opts.Undefined? then Obj(map[]) else opts)
  }

  // ---------------------------------------------------------------------------
  // Inbound dispatch

  /** Whether a message is an echo of this client's own action (`selfPeerId` is set and equal). */
  predicate IsEcho(selfPeerId: Option<Value>, origin: Value) {
    selfPeerId.Some? && LooseEq(origin, selfPeerId.value)
  }

  /** The `signalling` handler: forwards the payload to the addressed peer, if listed. */
  function HandleSignalling(c: Conn, m: Message): Conn {
    match FindPeer(c.peers, m.peerId)
    case None => c
    case Some(p) => c.(peerCalls := c.peerCalls + [ReceiveSignalling(p.handle, m.payload)])
  }

  /** The `announce` handler: another peer joined the room. */
  function HandleAnnounce(c: Conn, transfers: Transfers, m: Message): (Conn, Outcome<Thrown>) {
    match Prop(m.payload, "peer")
    case None => (c, Fail(NotAnObject))
    case Some(data) =>
      var (c1, r) := AddPeer(c, data, false);
      match r
      case Failure(e) => (c1, Fail(e))
      case Success(peer) =>
        (Resume(c1.(notices := c1.notices + [EmitPeerAnnounce(peer, m)]), transfers, peer), Pass)
  }

  /** One member of a `join` payload: an initiator peer is added and started, if it has a peer id. */
  function JoinMember(c: Conn, transfers: Transfers, member: Value): (Conn, Outcome<Thrown>) {
    match Prop(member, "peerId")
    case None => (c, Fail(NotAnObject))
    case Some(pid) =>
      if !Truthy(pid) then (c, Pass)
      else
        var (c1, r) := AddPeer(c, member, true);
        match r
        case Failure(e) => (c1, Fail(e))
        case Success(peer) =>
          (Resume(c1.(peerCalls := c1.peerCalls + [Start(peer.handle)]), transfers, peer), Pass)
  }

  /** The members loop of the `join` handler, stopping at the first member that raises. */
  function JoinMembers(c: Conn, transfers: Transfers, members: seq<Value>): (Conn, Outcome<Thrown>) {
    if members == [] then (c, Pass)
    else
      var (c1, o) := JoinMembers(c, transfers, members[..|members| - 1]);
      if o.Fail? then (c1, o) else JoinMember(c1, transfers, members[|members| - 1])
  }

  /** The `join` handler: this client joined; `selfPeerId` is taken from the payload. */
  function HandleJoin(c: Conn, transfers: Transfers, m: Message): (Conn, Outcome<Thrown>) {
    match Prop(m.payload, "self")
    case None => (c, Fail(NotAnObject))
    case Some(self) =>
      match Prop(self, "peerId")
      case None => (c, Fail(NotAnObject))
      case Some(pid) =>
        var c1 := c.(selfPeerId := if Truthy(pid) then Some(pid) else None);
        match Iterate(Get(m.payload, "members"))
        case None => (c1, Fail(NotAnObject))
        case Some(members) =>
          var (c2, o) := JoinMembers(c1, transfers, members);
          if o.Fail? then (c2, o)
          else (c2.(notices := c2.notices + [EmitJoin(m.payload, m)]), Pass)
  }

  /** The `leave` handler: another peer left; raises when it is not listed. */
  function HandleLeave(c: Conn, m: Message): (Conn, Outcome<Thrown>) {
    match Prop(m.payload, "id")
    case None => (c, Fail(NotAnObject))
    case Some(id) =>
      var (c1, r) := RemovePeer(c, id);
      match r
      case Failure(e) => (c1, Fail(e))
      case Success(peer) => (c1.(notices := c1.notices + [EmitPeerLeave(peer, m)]), Pass)
  }

  /** The `event` handler: re-emits the event under its own name unless it is an echo. */
  function HandleEvent(c: Conn, m: Message): (Conn, Outcome<Thrown>) {
    if IsEcho(c.selfPeerId, m.peerId) then (c, Pass)
    else if Nullish(m.payload) then (c, Fail(NotAnObject))
    else (c.(notices := c.notices + [EmitEvent(Get(m.payload, "type"), Get(m.payload, "data"), m)]), Pass)
  }

  /** The five-entry `messageHandlers` table; any other type name has no handler. */
  function Dispatch(c: Conn, transfers: Transfers, m: Message): (Conn, Outcome<Thrown>) {
    if m.typeName == "signalling" then (HandleSignalling(c, m), Pass)
    else if m.typeName == "announce" then HandleAnnounce(c, transfers, m)
    else if m.typeName == "join" then HandleJoin(c, transfers, m)
    else if m.typeName == "leave" then HandleLeave(c, m)
    else if m.typeName == "event" then HandleEvent(c, m)
    else (c, Fail(UnknownType(m.typeName)))
  }

  /** The message after camelization: its payload keys, and for events its sub-type too. */
  function Camelized(casing: Casing, d: Message): Option<Message> {
    var payload := casing.camelizeKeys(d.payload);
    if d.code == EventCode then
      match SetProp(payload, "type", casing.camelize(Get(payload, "type")))
      case None => None
      case Some(p) => Some(d.(payload := p))
    else Some(d.(payload := payload))
  }

  /** `handleSocketMessage`: dispatch, then the `message` notification unless it is an echo. */
  function HandleSocketMessage(c: Conn, casing: Casing, transfers: Transfers, d: Message): (Conn, Outcome<Thrown>) {
    match Camelized(casing, d)
    case None => (c, Fail(NotAnObject))
    case Some(m) =>
      var (c1, o) := Dispatch(c, transfers, m);
      if o.Fail? then (c1, o)
      else if IsEcho(c1.selfPeerId, m.peerId) then (c1, Pass)
      else (c1.(notices := c1.notices + [EmitMessage(m)]), Pass)
  }

  // ---------------------------------------------------------------------------
  // Runs

  /** Everything that can happen to a connection: a call of its API or a socket event. */
  datatype Input =
    | ConnectCall
    | SocketOpen
    | SocketMessage(d: Message)
    | AddPeerCall(data: Value, isInitiator: bool)
    | RemovePeerCall(id: Value)
    | ConnectStreamCall(stream: Value)
    | RequestFileTransferCall(fileId: Value, peer: Peer)
    | ResumeCall(peer: Peer)
    | SendCall(msg: Value, opts: Value)
    | SendEventCall(eventType: string, data: Value, opts: Value)
    | RunActionCall(name: string, data: Value)
    | InitialJoinCall(data: Value)
    | NotifyCreatedRecordingCall(data: Value)
    | GetMessagesCall(opts: Value)

  /** The collaborators fixed when the connection is created. */
  datatype Env = Env(urls: Urls, casing: Casing, transfers: Transfers)

  function Step(env: Env, c: Conn, input: Input): (Conn, Outcome<Thrown>) {
    match input
    case ConnectCall => (Connect(c), Pass)
    case SocketOpen => (SocketOpened(c), Pass)
    case SocketMessage(d) => HandleSocketMessage(c, env.casing, env.transfers, d)
    case AddPeerCall(data, isInitiator) =>
      var (c1, r) := AddPeer(c, data, isInitiator);
      (c1, if r.Failure? then Fail(r.error) else Pass)
    case RemovePeerCall(id) =>
      var (c1, r) := RemovePeer(c, id);
      (c1, if r.Failure? then Fail(r.error) else Pass)
    case ConnectStreamCall(stream) => (ConnectStream(c, stream), Pass)
    case RequestFileTransferCall(fileId, peer) => (RequestFileTransfer(c, fileId, peer), Pass)
    case ResumeCall(peer) => (Resume(c, env.transfers, peer), Pass)
    case SendCall(msg, opts) => Send(c, env.urls, env.casing, msg, opts)
    case SendEventCall(t, data, opts) => SendEvent(c, env.urls, env.casing, t, data, opts)
    case RunActionCall(name, data) => (RunAction(c, env.urls, env.casing, name, data), Pass)
    case InitialJoinCall(data) => (InitialJoin(c, env.urls, env.casing, data), Pass)
    case NotifyCreatedRecordingCall(data) => (NotifyCreatedRecording(c, env.urls, env.casing, data), Pass)
    case GetMessagesCall(opts) => GetMessages(c, env.urls, opts)
  }

  /**
   * A sequence of inputs. A call that raises leaves whatever it changed before
   * raising, and the connection goes on with the next input.
   */
  function Run(env: Env, c: Conn, inputs: seq<Input>): Conn
    decreases |inputs|
  {
    if inputs == [] then c
    else Run(env, Step(env, c, inputs[0]).0, inputs[1..])
  }
}

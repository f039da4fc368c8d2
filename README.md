# Room signalling: client connection and server room bookkeeping

This project models the two stateful halves of the room signalling protocol of the
yakk/fireside video-room application.

**Client: `RoomConnection`** (client/app/rooms/connection.js). This is the browser's connection to a room.
- It has a status machine: `disconnected`, then `connecting`, then `connected`.
- It dispatches decoded socket messages through a five-entry handler table: signalling, announce, join, leave and event.
- It suppresses echoes of its own events through `selfPeerId`.
- It keeps an ordered list of `Peer` objects, updated in place.
- It builds outbound socket frames and HTTP requests.
- It re-requests pending file transfers of a peer by the peer's stable `uid`.

The model is in two layers:
- `ConnectionModel` states every operation as a function over a `Conn` value. The collaborators appear in it as logs: the socket's calls, the HTTP requests, the calls made on Peer objects, and the notifications emitted to listeners.
- `Connection.RoomConnection` is a class with the same fields, updated step by step. Its loops are the join handler's member loop, `connectStream` and `attemptResumeFiletransfers`. Every method is proved equal to its function and to keep the class invariant: at most one peer per id, and every listed Peer created before the next.

`ConnectionProps` proves the protocol's properties about the functions. JavaScript's values, truthiness, property access on `null`/`undefined`, loose `==` and `String(...)` are modelled in `Values`. `String.prototype.replace` with a string pattern is modelled in `Text`, including the `$` patterns of ECMAScript's GetSubstitution in the replacement.

**Server: `Room` and `RoomMembership`** (server/rooms/models.py). This is the Django model of a room.
- `RoomCodec` (pure):
  - the seven-entry type-code map and its computed inverse;
  - `encode_message` and `decode_message` at the level of JSON values;
  - `should_save_message` and the save decision inside `send`;
  - `is_valid_action`.
- `RoomIds`: `generate_id` and the `uuid4().hex` peer ids, as nondeterministic choices.
- `Rooms.Room`: a class whose maps are the rows and Redis keys it touches.
  - memberships;
  - participant → peer id;
  - peer id → participant;
  - peer id → data hash;
  - stored messages;
  - the log of messages handed to Channels.

  Its methods are `join`, `leave`, `announce`, `send`, `connect_peer`, `disconnect_peer`, `set_peer_id` and `set_peer_data`. The lookups `get_peer_id` and `get_peer_data`, `is_admin` and `RoomMembership.get_display_name` are functions that these methods' contracts use.

## Model

| member | source | states |
|---|---|---|
| ConnectionModel.FindPeer | client/app/rooms/connection.js:200-202 | `getPeer(id)` yields the first listed peer whose id is loosely equal to `id`, with no earlier match; nothing exactly when no listed id matches |
| ConnectionModel.Reject | client/app/rooms/connection.js:207 | the list `_.reject` leaves holds exactly the peers whose id differs from `id`, and is no longer than before |
| ConnectionModel.StreamCalls | client/app/rooms/connection.js:194-196 | `connectStream` makes one `addLocalStream` per listed peer, the i-th for the i-th peer |
| Values.LooseEqIsEquivalence | client/app/rooms/connection.js:201 | the id comparison `p.id == id` (equal, or both null/undefined) is reflexive, symmetric and transitive |
| Values.NatToStringRoundTrip | client/app/rooms/connection.js:98 | the decimal text a number becomes in the `until` query reads back as the same number |
| Text.IndexOf | client/app/rooms/connection.js:186 | the position found is the first occurrence of `:name` in the action URL, or there is none |
| Text.ReplaceFirstSplices | client/app/rooms/connection.js:186 | `replace(':name', x)` puts `x`, with its `$` patterns expanded, in place of the first occurrence only, and keeps the text before and after that occurrence |
| Text.ReplaceFirstNone | client/app/rooms/connection.js:186 | a URL without `:name` is left unchanged |
| Text.ReplaceFirstLiteral | client/app/rooms/connection.js:186 | a replacement without `$` is spliced in literally at the first occurrence |
| Text.SubstituteLiteral | client/app/rooms/connection.js:186 | a replacement without `$` is inserted as it is |
| Text.SubstitutePatterns | client/app/rooms/connection.js:186 | in the replacement, `$$` is `$`, `$&` is the matched text, `` $` `` the text before it and `$'` the text after it; `$1` stays literal, since a string pattern has no groups |
| ConnectionProps.AddPeerAppendsOrKeeps | client/app/rooms/connection.js:128-155 | `addPeer` with an unlisted id appends exactly the new Peer at the end; with a listed id the list is unchanged and the returned Peer is not in it. Either way it returns a Peer object that did not exist before, attaches the current stream to it when one is set, and emits `peerAdded` once. It keeps one peer per id and leaves status, stream, `selfPeerId`, socket and HTTP log alone |
| ConnectionProps.RejectRemovesOne | client/app/rooms/connection.js:207 | with one peer per id, rejecting the id of the peer at position k removes exactly that entry and keeps the others in order |
| ConnectionProps.RejectNone | client/app/rooms/connection.js:207 | rejecting an id that no peer has keeps the list as it was |
| ConnectionProps.RemovePeerRemovesOne | client/app/rooms/connection.js:204-210 | `removePeer` raises, changing nothing, exactly when no peer has the id. Otherwise it takes the peer `getPeer(id)` finds, ends it, removes exactly its entry keeping the others in order (under the equal-or-both-nullish `==`, see "## Left out"), returns it and emits `peerRemoved{peerId, uid}`. It keeps one peer per id and leaves status, stream, socket and HTTP log alone |
| ConnectionProps.JoinMemberEffect | client/app/rooms/connection.js:56-62 | a join member with a truthy `peerId` becomes an initiator Peer, listed unless its id already is, then started, then its pending transfers are resumed; a member without one is skipped; a null member raises |
| ConnectionProps.JoinMembersEffect | client/app/rooms/connection.js:56-62 | over the member loop the earlier peers stay first and in order, every new entry is an initiator, every member with a truthy `peerId` ends up listed, only `peerAdded` is emitted, and one peer per id is kept; the loop completes exactly when no member is null |
| ConnectionProps.JoinMembersExact | client/app/rooms/connection.js:56-62 | a member loop that completes creates one initiator Peer per member with a truthy `peerId`, with consecutive handles in member order. Each Peer is offered to the list (appended unless its id is listed), gets the stream, is started and has its transfers resumed, in member order, with one `peerAdded` each |
| ConnectionProps.JoinMembersStops | client/app/rooms/connection.js:56-62 | once a member raises, the members after it are not visited |
| ConnectionProps.ListedStaysFound | client/app/rooms/connection.js:200-202 | `getPeer(id)` on a list that has a match returns the same Peer after more peers are appended to the list |
| ConnectionProps.HandleJoinEffect | client/app/rooms/connection.js:53-64 | the join handler sets `selfPeerId` from `payload.self.peerId` (unset when falsy) and keeps the earlier peers first. When no member raises, `join` is emitted once, last, after `peerAdded` notifications only. When a member raises, only `peerAdded` notifications are emitted, and no `join` |
| ConnectionProps.HandleJoinExact | client/app/rooms/connection.js:53-64 | a completed join lists, starts and resumes the members' Peers in member order, and emits their `peerAdded` notifications and then `join` |
| ConnectionProps.DispatchKeepsSelf | client/app/rooms/connection.js:40-75 | no handler but `join` changes `selfPeerId`, the status, the stream, the socket or the HTTP log, and all keep one peer per id |
| ConnectionProps.EventEchoSuppressed | client/app/rooms/connection.js:106-126 | for an event, `event.<type>` and `message` are both withheld exactly when `selfPeerId` is set and equals the sender; otherwise `event.<type>` comes first and `message` second |
| ConnectionProps.MessageNotifiedAfterHandler | client/app/rooms/connection.js:121-125 | for every type but join, the handler runs first and `message` follows exactly when the handler did not raise and the message is not an echo |
| ConnectionProps.UnknownTypeRaises | client/app/rooms/connection.js:122 | a type name outside the five handlers raises and changes and emits nothing |
| ConnectionProps.SignallingForwardedOrDropped | client/app/rooms/connection.js:41-46 | a signalling message reaches the matching peer with its (camelized) payload unchanged; with no matching peer it is dropped without raising; the peer list is unchanged |
| ConnectionProps.AnnounceListsPeer | client/app/rooms/connection.js:47-52 | the announce handler appends the announced peer at the end when its id is unlisted and keeps the list when it is listed, so the peer is listed afterwards. It emits `peerAdded` then `peerAnnounce`, attaches the current stream, re-requests the transfers pending for its `uid`, and keeps one peer per id |
| ConnectionProps.DuplicateAnnounceKeepsOneEntry | client/app/rooms/connection.js:145-151 | announcing the same peer twice leaves one listed entry for it; the second Peer object is not listed, and the notifications are `peerAdded`, `peerAnnounce` for each object in turn |
| ConnectionProps.ResumeCallsInOrder | client/app/rooms/connection.js:224-231 | resumption issues, for the i-th pending file id in order, the `requestFileTransfer` signal and then the wait for its channel |
| ConnectionProps.ResumeKeyedByUid | client/app/rooms/connection.js:224-231 | resumption only appends calls, all on the given Peer object, and waits for exactly the file ids pending for the peer's `uid`, in order, whatever its transient id |
| ConnectionProps.ResumeCallsAwait | client/app/rooms/connection.js:226-230 | resuming a list of file ids waits for exactly those ids, in order, on the one peer |
| ConnectionProps.RunActionUrl | client/app/rooms/connection.js:185-187 | `runAction` posts to the action URL with its first `:name` replaced by the decamelized name, with `$` patterns in that name expanded; the URL is used unchanged when it has no `:name`, and the name is inserted literally when it has no `$` |
| ConnectionProps.SendRoutes | client/app/rooms/connection.js:161-175 | `send` raises and sends nothing exactly when the message is nullish or the options are `null`. It posts `{type, payload}` to the messages URL when `http` is missing or truthy, and otherwise writes one frame `{t, p}`; the payload is decamelized either way |
| ConnectionProps.SendEventIsSend | client/app/rooms/connection.js:177-183 | `sendEvent(type, data, opts)` behaves as `send` of the event message `{type: e, payload: {type: decamelize(type), data}}` with the same options |
| ConnectionProps.UntilReadsBack | client/app/rooms/connection.js:95-104 | a positive numeric `until` is appended after `?until=` to the messages URL and reads back as the same number |
| ConnectionProps.GetMessagesWithoutArgumentRaises | client/app/rooms/connection.js:95 | as written, `getMessages()` without an argument raises before fetching |
| ConnectionProps.GetMessagesDefaulted | client/app/rooms/connection.js:95-104 | with the parameter defaulted, `getMessages()` fetches the plain messages URL, every call the written version accepts is unchanged, and only `null` raises |
| ConnectionProps.DispatchEffect | client/app/rooms/connection.js:40-75 | every handler keeps the status and one peer per id, and only the join handler changes `selfPeerId` |
| ConnectionProps.SocketMessageEffect | client/app/rooms/connection.js:106-126 | a socket message keeps the status and one peer per id, and only a join message changes `selfPeerId` |
| ConnectionProps.StepEffect | client/app/rooms/connection.js:78-93 | only `connect()` from disconnected moves to connecting, and only the socket's `open` while `connect()` awaits it moves to connected; only a join message changes `selfPeerId`; every input keeps one peer per id |
| ConnectionProps.RunKeepsInvariant | client/app/rooms/connection.js:78-93 | over any sequence of calls and socket events the status never moves backwards and one peer per id is kept |
| ConnectionProps.RunFromInitial | client/app/rooms/connection.js:22-35 | from the constructed state every run keeps one peer per id |
| Connection.RoomConnection.constructor | client/app/rooms/connection.js:22-35 | a new connection is disconnected with no peers, no `selfPeerId` and no stream |
| Connection.RoomConnection.Connect | client/app/rooms/connection.js:83-93 | from disconnected: connecting, socket opened, `connecting` emitted, peers and `selfPeerId` unchanged; in any other status nothing changes |
| Connection.RoomConnection.OnConnect | client/app/rooms/connection.js:78-81 | the status becomes connected and `connect` is emitted |
| Connection.RoomConnection.SocketOpened | client/app/rooms/connection.js:89 | the one-shot `open` listener runs `onConnect` once |
| Connection.RoomConnection.AddPeer | client/app/rooms/connection.js:128-155 | the new state is that of `ConnectionModel.AddPeer`: a new Peer is appended for an unlisted id and the list is unchanged for a listed one; null data raises |
| Connection.RoomConnection.RemovePeer | client/app/rooms/connection.js:204-210 | raises exactly when no peer has the id; otherwise removes exactly one entry, keeping the others in order |
| Connection.RoomConnection.ConnectStream | client/app/rooms/connection.js:189-198 | stores the stream, attaches it to every listed peer in order, then emits `localStreamConnected` |
| Connection.RoomConnection.RequestFileTransfer | client/app/rooms/connection.js:216-217 | signals `requestFileTransfer {fileId}` to the peer and waits for its transfer channel |
| Connection.RoomConnection.AttemptResumeFiletransfers | client/app/rooms/connection.js:224-231 | one `requestFileTransfer` per pending file id of the peer's uid, in order; nothing when there are none |
| Connection.RoomConnection.Send | client/app/rooms/connection.js:161-175 | the new state and outcome are those of `ConnectionModel.Send`: with the `http` option missing or truthy, one post and no frame; with it falsy, one frame and no post; a nullish message or `null` options raise |
| Connection.RoomConnection.SendEvent | client/app/rooms/connection.js:177-183 | the new state and outcome are those of `ConnectionModel.SendEvent`: the option is resolved, then the event message is sent with it |
| Connection.RoomConnection.RunAction | client/app/rooms/connection.js:185-187 | one post to the action URL with the name filled in, with the decamelized data |
| Connection.RoomConnection.InitialJoin | client/app/rooms/connection.js:157-159 | one post of the decamelized data to the join URL |
| Connection.RoomConnection.NotifyCreatedRecording | client/app/rooms/connection.js:212-214 | one post of the decamelized data to the recordings URL |
| Connection.RoomConnection.GetMessages | client/app/rooms/connection.js:95-104 | one fetch of the messages URL, bounded by a truthy `until`; `null` raises. A missing argument means no bound, as in the corrected definition of the Findings table |
| Connection.RoomConnection.HandleSignalling | client/app/rooms/connection.js:41-46 | forwards the payload to the listed peer with the sender's id, if any |
| Connection.RoomConnection.HandleAnnounce | client/app/rooms/connection.js:47-52 | adds a non-initiator peer, emits `peerAnnounce`, resumes its transfers |
| Connection.RoomConnection.HandleJoin | client/app/rooms/connection.js:53-64 | sets `selfPeerId`, adds and starts one initiator peer per member with a truthy id, in member order, stops at a member that raises, emits `join` |
| Connection.RoomConnection.JoinMember | client/app/rooms/connection.js:56-62 | one pass of the member loop has the effect of `ConnectionModel.JoinMember`: a member with a truthy `peerId` becomes a started initiator peer, a null member raises |
| Connection.RoomConnection.HandleLeave | client/app/rooms/connection.js:65-69 | removes the peer and emits `peerLeave`; raises when it is not listed |
| Connection.RoomConnection.HandleEvent | client/app/rooms/connection.js:70-74 | emits `event.<type>` with the data unless the message is an echo |
| Connection.RoomConnection.DispatchMessage | client/app/rooms/connection.js:122 | runs the handler named by the type name; a name without a handler raises |
| Connection.RoomConnection.HandleSocketMessage | client/app/rooms/connection.js:106-126 | camelizes the payload (and an event's type), dispatches, then emits `message` unless the handler raised or the message is an echo |
| RoomCodec.TypeMapInjective | server/rooms/models.py:39-47 | no two codes share a type name |
| RoomCodec.TypeMapContents | server/rooms/models.py:39-47 | the codes are `s m l j a A e` and the names are the seven message types |
| RoomCodec.KnownTypes | server/rooms/models.py:39-47 | a name the codec knows is one of the seven |
| RoomCodec.InverseDefinedOnNames | server/rooms/models.py:53-55 | the inverse is defined on a name exactly when some code maps to it |
| RoomCodec.InverseUndoes | server/rooms/models.py:53-55 | the inverse sends a name to a code that maps back to it |
| RoomCodec.InverseOfCode | server/rooms/models.py:53-55 | the inverse sends a code's name back to that code |
| RoomCodec.InverseKeys | server/rooms/models.py:53-55 | the inverse's keys are exactly the map's names |
| RoomCodec.TypeMapBijective | server/rooms/models.py:39-55 | the map is one-to-one between the seven codes and seven names, and the inverse is its exact inverse in both directions |
| RoomCodec.EncodeMessage | server/rooms/models.py:70-75 | succeeds exactly for the seven known type names, giving `{t, p}` with the payload unchanged; otherwise a KeyError on the name |
| RoomCodec.DecodeMessage | server/rooms/models.py:77-82 | succeeds exactly for a dictionary with `p` and a known string code `t`, giving a known type and the payload unchanged; otherwise fails with the error Python raises first: a TypeError for a non-dictionary or an unhashable (list or dictionary) code, a KeyError on `t` when it is missing, a KeyError on the code itself when the code is not in the map, and a KeyError on `p` when it is missing |
| RoomCodec.DecodeEncode | server/rooms/models.py:70-89 | decoding an encoded message gives back the same type and payload, for every known type |
| RoomCodec.EncodeDecode | server/rooms/models.py:70-89 | encoding a decoded frame gives back its code and payload |
| RoomCodec.ShouldSaveRule | server/rooms/models.py:202-213 | leave and announce are saved; join, signalling and action are not; an event is saved unless its type is `recording_progress`, `upload_progress` or `meter_update`; `message` yields `None`; only events raise |
| RoomCodec.SaveDecisionRules | server/rooms/models.py:155-158 | an explicit `save` decides; a direct message without one is not stored; a broadcast without one is stored exactly when `should_save_message` says `True` |
| RoomIds.AlphabetIsIdChars | server/rooms/models.py:18-23 | the alphabet has sixty characters, each an upper-case letter but `O`, a lower-case letter but `l`, or a digit |
| RoomIds.IdCharsInAlphabet | server/rooms/models.py:18-23 | every such character is in the alphabet |
| RoomIds.GenerateId | server/rooms/models.py:18-23 | a room id is six characters, each from the alphabet |
| RoomIds.NewPeerId | server/rooms/models.py:107 | a peer id is the hex form of a version-4 UUID |
| Rooms.BookkeepingMessagesEncode | server/rooms/models.py:161-172 | the announce and leave messages encode with codes `a` and `l` and are stored when broadcast |
| Rooms.Room.constructor | server/rooms/models.py:57-60 | a new room has no memberships, peers, peer data or messages |
| Rooms.Room.SetPeerId | server/rooms/models.py:106-112 | stores a fresh version-4 UUID as the participant's peer id, which `get_peer_id` then returns; nothing else changes |
| Rooms.Room.SetPeerData | server/rooms/models.py:126-144 | `get_peer_data` then returns the value for that peer and key, and every other peer and key reads as before |
| Rooms.Room.ConnectPeer | server/rooms/models.py:114-120 | binds the peer id to the participant and records the channel, which `channel_for_peer` then names |
| Rooms.Room.DisconnectPeer | server/rooms/models.py:122-124 | removes the peer id from the peers hash and deletes all of its data; nothing else changes |
| Rooms.Room.Send | server/rooms/models.py:150-159 | stores the message exactly when the save decision is `True`, and before encoding; hands the encoded envelope to the group, or to the peer's channel, exactly when the decision and the encoding succeed |
| Rooms.Room.Announce | server/rooms/models.py:161-166 | raises, changing nothing, exactly when the participant is not a member; otherwise broadcasts and stores `announce {peer}` |
| Rooms.Room.Leave | server/rooms/models.py:168-172 | disconnects the peer, keeps the participant's peer id, and broadcasts and stores `leave {id}` |
| Rooms.Room.Join | server/rooms/models.py:174-191 | a new member gets the owner role exactly when they own the room and is displayed under their own name; existing memberships are untouched; a stored peer id is returned unchanged, otherwise a fresh one is stored and returned; the peer is bound to the participant on the channel and announced |
| Rooms.RejoinKeepsPeerId | server/rooms/models.py:168-191 | join, leave and join again return the same peer id, keep one membership, and leave the peer connected on the second channel |

## Left out

- **Inputs and collaborators.**
  - `Message.decode`, `new Message(...)` and `MESSAGE_TYPES` (app/messages/store, ./constants) are not part of this model. `HandleSocketMessage` takes the decoded message, and the event code is taken to be `e`, as in the server's map.
  - The casing helpers of lib/util are opaque functions fixed at construction. No casing round trip is claimed.
  - `FileTransferManager.receiversForUid` is an opaque map from uid to the pending file ids; a missing or empty answer both mean "none".
  - Socket, Peer, `fetchPost` and `fetchJSON` are logs of the calls made on them. Their promises and return values are not modelled.
- **Client behaviour outside the model.**
  - The asynchronous continuation of `requestFileTransfer` and the re-emission of receiver events are left out, as is `peer.on('requestFileTransfer', ...)` in `addPeer`.
  - Stopping the old stream's tracks in `connectStream` is left out.
  - mobx observability, `this.room`, `this.fs`, the logger and the socket URL are left out.
  - ConnectionModel.Urls: every URL (`messages`, `action`, `join`, `recordings`) is taken to be a configured string. With no `urls` option, `this.urls` is `{}` (client/app/rooms/connection.js:24): `runAction` would then raise a TypeError on `this.urls.action.replace`, and the other posts and fetches would go to `undefined`. `RunAction`, `InitialJoin`, `NotifyCreatedRecording`, `GetMessages` and `Send` do not model that case.
- **JavaScript semantics, simplified.**
  - `==` is modelled as equal-or-both-nullish: no coercion between numbers and strings. So `RemovePeerRemovesOne` removes exactly one entry only under this `==`: with real coercion, ids such as `"0"` and `""` are both `== 0`, and `_.reject` could drop two entries that one-peer-per-id lets through.
  - Objects are values, so reference identity shows only as a Peer's `handle`.
  - Numbers are integers, and `String(n)` (`Display`) is plain decimal for every integer. JavaScript's exponent notation from 1e21 on, and its inexact integers above 2^53, are not modelled. `UntilReadsBack` holds for JavaScript's numbers only below those bounds.
  - An event payload that is an array (on which JavaScript would set `type`) is treated as raising.
  - Handler names inherited from `Object.prototype` are not modelled.
- **Differences between the client's tests and its source.**
  - `requestFileTransfer` takes no `mode`, although client/test/app/rooms/connection.spec.js:322-331 passes one; the model follows the source.
  - The method is `attemptResumeFiletransfers`, although client/test/app/rooms/connection.spec.js:346-354 calls another spelling.
  - `restart`, tested at client/test/app/rooms/connection.spec.js:469-473, does not exist in the source.
- **Server.**
  - `json.dumps`/`json.loads` are left out: envelopes and peer data are JSON values.
  - Redis, Channels and the ORM are maps and a log.
  - `PeerSerializer` is an opaque function of the membership. What it reads from Redis, such as the peer id, is not modelled.
  - `Room.message` is the `RoomMessage` constructor. `group_name` is `GroupName` and `channel_for_peer` is `ChannelForPeer`.
  - `add_message` stores only type and payload, which is all `send` passes.
  - `connected_memberships`, `get_initial_data`, `RoomManager.create_with_owner`, the recording properties of `RoomMembership`, the `Message` and `Participant` schemas, the post_save handler and `flushdb` under DEBUG are not part of this model.
  - `is_valid_action` is the `IsValidAction` membership test. Nothing beyond that membership is claimed for it.
  - A `to_peer` whose channel was never recorded is sent to `Channel(None)`. What Channels does with that is not modelled.
- **Randomness and ids.**
  - `random.choice` and `uuid4` are nondeterministic choices.
  - The model does not claim that two peer ids differ.
  - The 6-character limit of the room id column is not modelled.
- Connection.RoomConnection.GetMessages: follows the corrected `getMessages({until} = {})` of the Findings table. A call without an argument fetches the unbounded messages URL, where the code as written at client/app/rooms/connection.js:95 raises a TypeError. The written behaviour is `ConnectionModel.GetMessagesAsWritten`.
- ConnectionModel.Step: its `getMessages` input runs the same corrected definition, so runs of the connection assume the fix.


## Findings

| source | as written | input that shows it | evidently intended | confidence | as-written member | corrected member |
|---|---|---|---|---|---|---|
| client/app/rooms/connection.js:95 | `getMessages({until})` destructures its argument with no default | `getMessages()` with no argument, as client/test/app/rooms/connection.spec.js:462 calls it, raises a TypeError before fetching | `getMessages({until} = {})`: no argument fetches the unbounded messages URL | high; not executed | ConnectionProps.GetMessagesWithoutArgumentRaises | ConnectionProps.GetMessagesDefaulted |

# Verified models of the assessment platform's kernels

A Dafny 4.11 model of the parts of the platform that decide something, and proofs of what they
promise. `dafny verify dfyconfig.toml` checks all of it.

| files | what they model |
|---|---|
| `Codec.dfy`, `Wire.dfy` | the y-websocket wire format and what a decoded frame asks for |
| `Tickets.dfy` | admission to the collaboration service: ticket window, single-use store, handshake |
| `Admission.dfy` | the upgrade handler, which joins that handshake to the rooms |
| `Collab.dfy`, `Convergence.dfy`, `Settling.dfy` | the collaboration protocol as a state machine, replicas that agree, and that they always can |
| `Presence.dfy`, `Effects.dfy` | what a room remembers of its peers' presence, and what every event does and to whom |
| `Rooms.dfy`, `CollabServer.dfy` | the live rooms, peers and event handlers, which take the steps of that machine |
| `Shuffle.dfy`, `Sorting.dfy`, `Draw.dfy`, `Compose.dfy` | the shuffle, the question draw and paper composition |
| `Idempotency.dfy`, `JobId.dfy` | idempotent execution under every interleaving, and job identifiers |
| `BankJobs.dfy` | the import checkpoint under crashes, redeliveries and lost answers |
| `SkillScores.dfy`, `AttemptState.dfy` | score roll-up and the attempt's life cycle |
| `CandidateView.dfy`, `AuthorView.dfy`, `Audience.dfy` | what a candidate sees, what an author sees, and the answer-key detector |

Operations that update variables or fields are methods and classes, each proved equal to a function
of its inputs or of the old state; what the platform promises is then proved of those functions, and
of every run where the promise is about runs. `CollabServer.Server` keeps a ghost history of its
states: every handler extends it by exactly one step of the `Collab` machine, so the run theorems
hold of the object whatever events arrive.

## Assumptions

- The clock is monotone and `hashToken` is a deterministic injective function (`Tickets`). Single use
  is proved for handshakes that claim a ticket inside its window, which one instant per handshake
  implies (`OneInstantIsInsideWindow`).
- A Yjs document is a set of updates: `encodeStateAsUpdate(doc, sv)` is `doc - sv` and `applyUpdate`
  is union. State vectors are the sets their senders hold. Yjs reads back what it writes (`Wire`,
  where `SomeYjsIsFaithful` shows that this can be met).
- `Convergence` adds an environment: clients that keep a replica, answer a step 1 with what the
  sender lacks and apply what they receive, over channels that deliver each frame once and in order.
- Deliveries of one bank job do not overlap, and each transaction is atomic. One idempotency key
  always uses one store in a process.
- A generator is an arbitrary function from draw number to draw. Numbers are exact rationals with
  infinities and NaN, not IEEE doubles; weights in `Compose` are integers at a common scale, as
  two-decimal weights are (`OnlyRatiosMatter`: any scale gives the same allocation).
  Strings are sequences of characters rather than of UTF-16 units.
- `Array.prototype.sort` is modelled by a stable insertion sort; the laws use only that it sorts.

## Where code and promise differ

- `apps/collab/src/ticket-store.ts:39-44` says a ticket is remembered one second longer than a replay
  could succeed. The code keeps it for exactly TTL plus skew, and `RetentionIsExact` shows that this
  is the least retention that works. `authorise` reads the clock twice, so a claim can fall after the
  window its verification fell inside: `LateClaimAdmitsTwice` gives the run, `RepeatAdmittedIff` the
  exact condition.
- `packages/core-domain/src/draw.ts:174-175` promises a draw that depends on the pool as a set. It
  does exactly when no two different matching rows share an id (`OrderIndependentIff`): the first
  listed of two such rows is the one kept.
- An import item whose commit succeeded but whose answer was lost is reported as refused as well, so
  it is counted twice: `CountersBalance` gives the exact condition, `LostAnswerCountsTwice` the run.
  It is still written only once. The message stored for it, that nothing was saved, is then wrong.
- `failBankJob` (`packages/db/src/bank-jobs.ts:331-343`) has no status guard. When the answer to the
  finishing commit is lost on the final attempt, a job that succeeded is then marked failed:
  `LostFinishFails` gives the run, `SucceededStaysIff` the exact condition, which is the guard of that
  branch. The bank, the checkpoint, the counters and the problems stay as they were
  (`FinishedIsFinal`).
- `packages/core-domain/src/compose.ts:58` says a skill of weight 2 gets twice the questions of a 1.
  Each required skill first gets one question, so it need not: `DoubleWeightSameQuestions` gives an
  input, `PicksFollowWeights` the bound that does hold.
- `apps/worker/src/idempotency.ts:198-200` says a throw records nothing. A `store.set` that takes
  effect and then throws does leave its record: `LostWriteLeavesRecord` gives the run,
  `FailureLeavesNoTrace` shows that this is the only way. A retry then replays the record.
- `apps/worker/src/idempotency.ts:260-261` says that with the passes swapped `a%3Ab` and `a:b` both
  encode to `a%3Ab`. They do collide, but on `a%253Ab` (`SwappedPassesCollide`).
- A starter-code language named like an answer-key field makes the detector report a clean view;
  `DetectorReportsPublicView` gives one, `ViewPassesDetectorIff` the exact condition.

## Model

| member | source | states |
|---|---|---|
| `Collab.StepKeepsRooms` | apps/collab/src/server.ts:431-481 | every step of the server (accept, frame, close event, reaper, pong, heartbeat, drain) keeps the room invariant: keys hold live rooms of that key, connected peers sit in registered rooms, reapers run for empty rooms only, the reported size is the map size |
| `Collab.StepKeepsSync` | apps/collab/src/server.ts:483-540 | every step keeps the sync invariant: an answered peer with an open socket has declared, been sent or sent every update of its room's document |
| `Collab.DataCovers` | apps/collab/src/server.ts:503-507 | applying an update and broadcasting it leaves every connected peer covered: the origin by what it sent, the others by what they are sent |
| `Collab.AnswerCovers` | apps/collab/src/server.ts:497-501 | the answer to sync step 1, the document minus the declared state vector, leaves its sender covered |
| `Collab.RunIsOk` | apps/collab/src/server.ts:431-620 | both invariants hold in every state of every run from an idle server |
| `Collab.ConnectedPeerHoldsRegisteredRoom` | apps/collab/src/rooms.ts:119-140 | in every run a connected peer's room is the very object the registry holds under that key, not destroyed and with no reaper armed |
| `Collab.ReaperRunsForEmptyRooms` | apps/collab/src/rooms.ts:142-163 | in every run, among held rooms the reaper is armed exactly for the empty ones, a room is destroyed exactly when no key holds it, and the last reported size equals the number of rooms held |
| `Collab.DocumentOnlyGrows` | apps/collab/src/rooms.ts:48-59 | over any stretch of a run a room keeps its key, its document only grows, and a destroyed room stays destroyed |
| `Collab.RoomOutlivesItsPeers` | apps/collab/src/rooms.ts:142-154 | a room not yet reaped is the one its key held at every earlier time since it existed: nothing in its document is lost and no other object replaces it |
| `Collab.RejoinGetsSameDocument` | apps/collab/src/rooms.ts:142-154 | a peer accepted before the reaper fires gets the same room and a step 1 over everything the document held before |
| `Collab.SyncedPeerMissesNothing` | apps/collab/src/server.ts:496-507 | in every run, once its step 1 is answered and while its socket is open, a peer has declared, been sent or sent every update of its room |
| `Collab.NotAliveWasSilent` | apps/collab/src/server.ts:547-558 | a peer marked not alive was pinged by an earlier heartbeat and has not answered since |
| `Collab.CutOnlyAfterSilence` | apps/collab/src/server.ts:549-557 | a heartbeat cuts only a connection that left a whole earlier heartbeat unanswered |
| `Convergence.MoveKeepsSystem` | apps/collab/src/server.ts:454-507 | server, channels and clients together keep this: a replica holds what it declared, sent and received, and once it has answered the server's step 1 all of it is in the document or on its way up |
| `Convergence.SystemRunIsOk` | apps/collab/src/server.ts:454-507 | that invariant holds in every run of the whole system, with foreign peers sending anything |
| `Convergence.QuietReplicaIsTheDocument` | apps/collab/src/server.ts:454-507 | a connected client that has synced both ways, with both channels empty, holds exactly the room's document |
| `Convergence.QuietReplicasAgree` | apps/collab/src/server.ts:454-507 | two such clients of one session hold the same document |
| `Settling.RunIsGreeted` | apps/collab/src/server.ts:454-458 | in every run the first frame to a peer is step 1, and a client that has received anything has answered it |
| `Settling.ReplicaOnlyGrows` | apps/collab/src/server.ts:483-507 | in every run a client never loses what it holds |
| `Settling.ClientCanAlwaysSettle` | apps/collab/src/server.ts:454-507 | from every state of every run, a client with an open socket and nothing fatal on its way up becomes quiet by its own hello, receive and arrive moves, and then holds the document, which has everything it held before |
| `Wire.SentIsHeard` | apps/collab/src/server.ts:490-520 | given a Yjs that reads back what it writes, every message whose payload length is a safe integer is decoded, whatever bytes follow, as the event it means |
| `Wire.SomeYjsIsFaithful` | apps/collab/src/server.ts:496-507 | the hypothesis of the previous row can be met: a Yjs that reads back every state vector and update it writes |
| `Wire.CutIsRefused` | apps/collab/src/server.ts:528-539 | every proper prefix of a message whose payload length is a safe integer is undecodable, so it closes the socket instead of being taken for another event |
| `Wire.RelayKeepsMeaning` | apps/collab/src/server.ts:503-507 | the update frame relayed around received sync data means to its receivers what the received frame meant to the server |
| `Presence.PublishedIs` | apps/collab/src/server.ts:509-512 | publishing replaces the peer's entry or adds one, and leaves the others; no peer gets two |
| `Presence.PublishedInPlace` | apps/collab/src/server.ts:509-512 | publishing again keeps one's place and publishing first takes the last, so presence is replayed in order of first publication |
| `Presence.RetractedIs` | apps/collab/src/rooms.ts:146-148 | detaching removes exactly the peer's entry |
| `Presence.StepKeepsPresence` | apps/collab/src/rooms.ts:45-46 | every step keeps this: each room holds one entry for each attached peer that has published, its latest payload, and no other |
| `Presence.RoomRemembersLatest` | apps/collab/src/rooms.ts:45-46 | that holds in every state of every run |
| `Presence.NewcomerLearnsWhoIsThere` | apps/collab/src/server.ts:454-458 | in every run a newcomer is sent step 1 and then exactly the latest payload of each peer it finds in the room that has published, once each |
| `Effects.SyncDataIsRelayed` | apps/collab/src/server.ts:503-507 | in every run sync data joins the sender's document and reaches every other connected peer of the session with an open socket, once; nobody else is sent anything and nothing else changes |
| `Effects.PresenceIsRelayed` | apps/collab/src/server.ts:509-514 | in every run a presence payload is kept for the room and reaches every other connected peer of the session with an open socket, once, and nobody else |
| `Effects.SyncIsAnswered` | apps/collab/src/server.ts:497-501 | a step 1 is answered to its sender alone, with the document minus the state vector it sent |
| `Effects.QueryIsAnswered` | apps/collab/src/server.ts:516-520 | a presence query is answered to its sender alone, with exactly the latest payload of each other publisher in the room, once each |
| `Effects.StrangeFramesAreHarmless` | apps/collab/src/server.ts:484-488 | an unknown tag changes nothing at all; a text frame or an undecodable one closes its sender's socket and changes nothing else |
| `Effects.AcceptConnects` | apps/collab/src/server.ts:431-441 | an accepted peer is connected, open and alive in the room now held under its key, the one held before if there was one; no other peer changes |
| `Effects.CloseDisconnects` | apps/collab/src/server.ts:472-480 | a close event drops exactly that connection from the server and its room, keeps the document, and arms the reaper exactly when the room is then empty |
| `Effects.ReapDestroys` | apps/collab/src/rooms.ts:151-163 | a reaper that fires destroys its room and frees the key; no peer and no other room is touched |
| `Effects.HeartbeatCutsTheSilent` | apps/collab/src/server.ts:547-558 | a heartbeat cuts an open connection exactly when it left the last heartbeat unanswered, and marks every connection unanswered |
| `Effects.PongRevives` | apps/collab/src/server.ts:460-462 | a pong marks its peer alive and changes nothing else |
| `Effects.DrainClosesAll` | apps/collab/src/server.ts:597-620 | the drain closes every open connection, sends nothing, and from then on no peer is ever added |
| `Effects.EveryRoomWasJoined` | apps/collab/src/rooms.ts:51-69 | in every run every room was joined, so an arrival is a rejoin exactly when its key is held |
| `Wire.OtherFramesAreHeard` | apps/collab/src/server.ts:484-527 | a presence query is heard as one, an unknown tag as nothing, an unknown sync step as undecodable, a text frame as one |
| `Wire.UnreadableIsUndecodable` | apps/collab/src/server.ts:500-506 | sync data Yjs cannot read is undecodable, under each of the three tags |
| `Rooms.PeerConnection.constructor` | apps/collab/src/server.ts:213-220 | a new peer has an open socket, is alive and has been sent nothing |
| `Rooms.PeerConnection.Send` | apps/collab/src/server.ts:222-228 | a frame is sent if and only if the socket is open |
| `Rooms.PeerConnection.SendPresence` | apps/collab/src/server.ts:516-520 | the loop sends, in order, the last payload of every other peer |
| `Rooms.PeerConnection.Greet` | apps/collab/src/server.ts:454-458 | an arriving peer is sent step 1 over the document, then the presence of the others |
| `Rooms.Room.constructor` | apps/collab/src/rooms.ts:57-59 | a new room is empty, not joined, with no reaper |
| `Rooms.Room.Broadcast` | apps/collab/src/rooms.ts:87-93 | the loop reaches every attached peer but the origin exactly once, in any order, and nobody else |
| `Rooms.Room.Destroy` | apps/collab/src/rooms.ts:95-101 | a destroyed room has no peers, no presence and no reaper, and is marked destroyed |
| `Rooms.RoomRegistry.constructor` | apps/collab/src/rooms.ts:106-112 | a registry starts holding nothing |
| `Rooms.RoomRegistry.Acquire` | apps/collab/src/rooms.ts:119-131 | a held room is returned with its reaper cancelled; otherwise a fresh one is held and the new size reported |
| `Rooms.RoomRegistry.Attach` | apps/collab/src/rooms.ts:133-140 | the peer is in, the reaper off, the room joined; the answer says whether anyone had joined before |
| `Rooms.RoomRegistry.Detach` | apps/collab/src/rooms.ts:146-154 | the peer and its presence are gone, and the reaper is armed if the room is now empty |
| `Rooms.RoomRegistry.Release` | apps/collab/src/rooms.ts:156-163 | the key is dropped, the room it held destroyed and the new size reported; an unknown key changes nothing |
| `CollabServer.Server.constructor` | apps/collab/src/server.ts:244-251 | a new server is an idle state of the machine |
| `CollabServer.Server.Accept` | apps/collab/src/server.ts:431-458 | the handler takes the object exactly one accept step: the history of its states stays a run of the machine; rejoined says whether the held room had ever been joined |
| `CollabServer.Server.HandleFrame` | apps/collab/src/server.ts:483-540 | the handler decodes the bytes, dispatches and takes exactly the frame step their meaning prescribes, for every input |
| `CollabServer.Server.ApplyData` | apps/collab/src/server.ts:503-507 | merging, then the broadcast loop, is the sync-data step of the machine on every peer and room |
| `CollabServer.Server.Publish` | apps/collab/src/server.ts:509-514 | keeping and broadcasting presence is the presence step of the machine |
| `CollabServer.Server.AnswerSync` | apps/collab/src/server.ts:497-501 | the answer to step 1 is the ask-sync step of the machine |
| `CollabServer.Server.AnswerPresence` | apps/collab/src/server.ts:516-520 | the answer to a presence query is that step of the machine |
| `CollabServer.Server.OnClose` | apps/collab/src/server.ts:472-480 | the close handler takes exactly one close-event step |
| `CollabServer.Server.OnPong` | apps/collab/src/server.ts:460-462 | the pong handler takes exactly one pong step |
| `CollabServer.Server.OnReaper` | apps/collab/src/rooms.ts:151-153 | the reaper's timer takes exactly one reap step: it releases by key, and only an empty room |
| `CollabServer.Server.OnHeartbeat` | apps/collab/src/server.ts:547-558 | the heartbeat loop over the live connections is exactly one heartbeat step |
| `CollabServer.Server.Close` | apps/collab/src/server.ts:597-620 | the first call drains, in exactly one drain step; a second one changes nothing |
| `Codec.WriteVarUint` | apps/collab/src/protocol.ts:77-92 | the loop writes the base-128 form of a safe non-negative integer and refuses every other number |
| `Codec.ConcatBytes` | apps/collab/src/protocol.ts:95-106 | the measured buffer holds the parts one after another, copied at their offsets |
| `Codec.EncodeFrame` | apps/collab/src/protocol.ts:178-207 | each encoder writes its header and length-prefixed payload, and refuses a payload whose length is not a safe integer |
| `Codec.FrameReader.ReadVarUint` | apps/collab/src/protocol.ts:136-161 | at most 8 bytes are consumed and none out of bounds; the value is the sum of the groups exactly when the encoding ends in time and is a safe integer; every error has its own cursor |
| `Codec.FrameReader.ReadVarUint8Array` | apps/collab/src/protocol.ts:164-174 | a length, then exactly that many bytes, or an error if fewer remain |
| `Codec.DecodeFrame` | apps/collab/src/protocol.ts:227-253 | the reader-driven parse equals the pure one, on every byte string |
| `Codec.EighthPowerIsFirstUnsafe` | apps/collab/src/protocol.ts:136-161 | the multiplier guard fires exactly after the eighth group |
| `Codec.VarUintLength` | apps/collab/src/protocol.ts:77-92 | a number below the k-th power of 128 is written in at most k groups |
| `Codec.VarUintValue` | apps/collab/src/protocol.ts:77-92 | the groups written for a number denote that number |
| `Codec.VarUintRoundTrip` | apps/collab/src/protocol.ts:136-161 | a written safe integer is read back, wherever it stands and whatever follows |
| `Codec.VarUintCut` | apps/collab/src/protocol.ts:136-161 | a written integer cut short is refused |
| `Codec.VarBytesRoundTrip` | apps/collab/src/protocol.ts:109-111 | a length-prefixed byte string is read back wherever it stands |
| `Codec.VarBytesCut` | apps/collab/src/protocol.ts:164-172 | a length-prefixed byte string cut short is refused |
| `Codec.DecodeInvertsEncode` | apps/collab/src/protocol.ts:178-253 | every encoded frame, followed by any suffix, decodes to that frame |
| `Codec.ProperPrefixRejected` | apps/collab/src/protocol.ts:227-253 | every proper prefix of an encoded frame is rejected |
| `Codec.TagsOnTheWire` | apps/collab/src/protocol.ts:32-45 | the bytes of the protocol: sync frames start with 0 and then 0, 1 or 2, awareness with 1 |
| `Codec.OtherTags` | apps/collab/src/protocol.ts:227-253 | tag 3 asks for presence, any other unknown message is ignored, an unknown sync step is refused |
| `Codec.LimitsAreKept` | apps/collab/src/protocol.ts:136-174 | eight continuation bytes are too many whatever follows, and a length beyond the bytes is refused |
| `Codec.SafeIntegersAre` | apps/collab/src/protocol.ts:77-80 | safe integers are those below 2^53 |
| `Codec.UnsafeIsRefused` | apps/collab/src/protocol.ts:136-161 | a number beyond them is refused on reading, wherever it stands |
| `Codec.EncodingIsPrefixFree` | apps/collab/src/protocol.ts:178-207 | no encoded frame is a prefix of another, so encoding is injective |
| `Tickets.TicketStore.constructor` | apps/collab/src/ticket-store.ts:71-89 | a new store remembers nothing and has swept at instant 0 |
| `Tickets.TicketStore.Claim` | apps/collab/src/ticket-store.ts:91-104 | sweep, then look up, then remember until now plus the retention; replayed exactly for a remembered, unexpired hash |
| `Tickets.TicketStore.Sweep` | apps/collab/src/ticket-store.ts:135-142 | at most once per interval, the loop drops exactly the expired entries |
| `Tickets.TicketStore.Clear` | apps/collab/src/ticket-store.ts:122-126 | everything is forgotten |
| `Tickets.Gatekeeper.Authorise` | apps/collab/src/server.ts:343-376 | drain, path, ticket, signature and age, then single use, in that order, each with its own refusal |
| `Tickets.Gatekeeper.BeginClose` | apps/collab/src/server.ts:597-599 | draining begins |
| `Tickets.Gatekeeper.EndClose` | apps/collab/src/server.ts:649-650 | the store is emptied once draining |
| `Tickets.OneInstantIsInsideWindow` | apps/collab/src/server.ts:364-373 | a handshake that verifies and claims at one instant claims inside the ticket's window |
| `Tickets.Remembered` | apps/collab/src/ticket-store.ts:91-142 | through every event and sweep, an admitted ticket stays in the store until its retention has elapsed |
| `Tickets.RepeatAdmittedIff` | apps/collab/src/ticket-store.ts:91-104 | a repeat that still verifies is admitted exactly when its claim comes a full retention after the first claim |
| `Tickets.SingleUse` | apps/collab/src/ticket-store.ts:39-44 | over every run with a monotone clock and claims inside the window, a ticket string is admitted at most once |
| `Tickets.AdmissionRule` | apps/collab/src/server.ts:343-376 | an upgrade is admitted if and only if the server is not draining, the path names a room, the ticket verifies and it was not admitted before |
| `Tickets.RetentionIsExact` | apps/collab/src/ticket-store.ts:39-44 | single use holds for all runs exactly when the retention is at least TTL plus skew, 65 seconds |
| `Tickets.LateClaimAdmitsTwice` | apps/collab/src/server.ts:364-373 | when the two clock reads of one handshake straddle the expiry, a ticket can be admitted twice: the run |
| `Tickets.RefusalsAreExact` | apps/collab/src/server.ts:343-376 | each refusal of a handshake is given exactly for its own reason, and the first that applies |
| `Tickets.UnverifiedIsExact` | packages/auth/src/ws-ticket.ts:120-147 | a ticket is not yet valid exactly when more than 5 seconds early, expired exactly from 60 seconds on, and otherwise refused only for what the envelope says |
| `Tickets.AdmissionCarries` | apps/collab/src/server.ts:369-375 | an admission carries the ticket's own claims and the path's room code, and is remembered for the retention; an unverified request touches nothing |
| `Tickets.RoomCodesAre` | apps/collab/src/server.ts:84-91 | a room code is 3 to 64 letters, digits, underscores and hyphens, starting with neither of the last two |
| `Tickets.SweepsAreAmortised` | apps/collab/src/ticket-store.ts:128-142 | a sweep drops exactly the expired entries, and runs only when ten seconds have passed since the last |
| `Tickets.NothingOlderThanSweep` | apps/collab/src/ticket-store.ts:135-142 | no entry expired before the last sweep, and the last sweep is not in the future |
| `Tickets.EntriesAreRecent` | apps/collab/src/ticket-store.ts:128-142 | after a claim no entry in the store expired a sweep interval ago or earlier |
| `Admission.AdmissionAccepts` | apps/collab/src/server.ts:416-435 | an admitted handshake whose upgrade completes is an accept step on the session its ticket names: handshake and server agree on whether they are draining |
| `Admission.HappeningKeepsService` | apps/collab/src/server.ts:416-481 | handshakes, aborted upgrades, shutdown and every inner step keep this: each peer came in by its own admitted handshake, into the room of that ticket's session |
| `Admission.ServiceRunIsOk` | apps/collab/src/server.ts:416-481 | that invariant holds in every run of the service |
| `Admission.PeerIsInItsTicketsRoom` | apps/collab/src/rooms.ts:8-15 | in every run, each peer's room is keyed by the session its own ticket names, whatever path segment it came with |
| `Admission.TicketOpensOneConnection` | apps/collab/src/server.ts:369-375 | over every run of the service with a monotone clock and claims inside the window, no ticket string admits two peers |
| `Admission.AbortedAdmitsNobody` | apps/collab/src/server.ts:424-426 | no peer is ever admitted by an upgrade aborted after its ticket was claimed |
| `Admission.AbortedTicketIsSpent` | apps/collab/src/server.ts:416-427 | such an upgrade spends its ticket: over every run no peer comes in by it |
| `Shuffle.BoundedIndex` | packages/core-domain/src/shuffle.ts:18-27 | the index is in range for every draw, including negative, too large and non-finite ones |
| `Shuffle.SloppyDraws` | packages/core-domain/src/shuffle.ts:13-27 | a negative or non-finite draw picks the first item, a draw of one or more the last |
| `Shuffle.BoundedIndexCells` | packages/core-domain/src/shuffle.ts:18-27 | on the unit interval an index is hit exactly on its cell |
| `Shuffle.CellWidth` | packages/core-domain/src/shuffle.ts:18-27 | every cell of one length has the same width |
| `Shuffle.ShuffleWith` | packages/core-domain/src/shuffle.ts:38-46 | the splicing loop computes the selection by picks of the generator |
| `Shuffle.ShuffledIsPermutation` | packages/core-domain/src/shuffle.ts:29-46 | whatever the generator returns, the result is a permutation of the input |
| `Shuffle.EveryOrderHasACode` | packages/core-domain/src/shuffle.ts:29-46 | every order of the items is drawn by some sequence of indices, the k-th below n - k |
| `Shuffle.CodeIsUnique` | packages/core-domain/src/shuffle.ts:29-46 | for distinct items only one such sequence draws a given order: with the previous row, a bijection |
| `Shuffle.OrderIsOneBoxOfDraws` | packages/core-domain/src/shuffle.ts:29-46 | for draws in the unit interval, one order comes out exactly when every draw falls in that order's box of cells, all boxes having equal sides: uniform when the generator is |
| `Shuffle.SelectionHasOneCode` | packages/core-domain/src/shuffle.ts:38-46 | the first items drawn are a given selection exactly when the first indices are that selection's code |
| `Shuffle.SelectionIsOneBoxOfDraws` | packages/core-domain/src/shuffle.ts:29-46 | the first k items are a given selection exactly when the first k draws fall in that selection's box; all such boxes have the same sides, and later draws may be anything |
| `Shuffle.ShuffleUsesFirstDraws` | packages/core-domain/src/shuffle.ts:38-46 | for any generator, the first k draws alone decide the first k items |
| `Shuffle.Aimed` | packages/core-domain/src/shuffle.ts:29-46 | every index sequence is produced by some generator |
| `Draw.PickCount` | packages/core-domain/src/draw.ts:81-116 | a valid rule asks for a positive whole number of questions |
| `Draw.Eligible` | packages/core-domain/src/draw.ts:147-164 | the loop over a seen-set, then the sort, computes the eligible rows |
| `Draw.EligibleIs` | packages/core-domain/src/draw.ts:139-164 | the eligible rows are matching rows of the pool, one per matching id, in strict id order |
| `Draw.ResolveDraw` | packages/core-domain/src/draw.ts:177-199 | validate, filter, refuse or shuffle and cut, in that order |
| `Draw.DrawIsExact` | packages/core-domain/src/draw.ts:166-199 | a valid rule is refused exactly when fewer distinct ids match than it asks for, with those counts; otherwise exactly that many distinct matching questions come out |
| `Draw.ValidRuleIff` | packages/core-domain/src/draw.ts:81-116 | a rule is valid exactly when it asks for a positive whole number of questions in a band of whole difficulties from 1 to 5, with a whole exclusion and a finite score; only then is it refused for want of questions alone |
| `Draw.ServedSuits` | packages/core-domain/src/draw.ts:118-137 | every question served has a whole difficulty in the band, a wanted kind, a shared skill, and was not seen within the exclusion; and every such row of the pool is eligible by its id |
| `Draw.DrawUsesFirstDraws` | packages/core-domain/src/draw.ts:177-199 | a draw depends on as many numbers as it serves questions, and on no later one |
| `Draw.DrawIsOneBoxOfDraws` | packages/core-domain/src/draw.ts:198 | each ordered choice of eligible questions is served exactly on its own box of draws, and all boxes are alike: every ordered selection is equally likely |
| `Draw.DrawIgnoresPresentation` | packages/core-domain/src/draw.ts:139-199 | two pools whose matching rows are the same, in any order, with any repetition and any non-matching rows, give the same ordered draw, provided matching rows of one id are equal |
| `Draw.OrderIndependentIff` | packages/core-domain/src/draw.ts:174-175 | the promise that the draw is a function of the pool as a set holds of a set of rows exactly when no two different matching rows share an id, or nothing can be drawn |
| `Draw.ClashingRowsAreVisible` | packages/core-domain/src/draw.ts:147-164 | when two different matching rows share an id, two listings of the same rows are drawn differently by some generator |
| `Compose.AllocateByWeight` | packages/core-domain/src/compose.ts:113-132 | the method with its leftover loop computes the allocation the laws below are about |
| `Compose.HandOut` | packages/core-domain/src/compose.ts:125-131 | the loop gives one more to each slot in order until the leftover is gone |
| `Compose.FlooringLoss` | packages/core-domain/src/compose.ts:113-132 | flooring loses exactly the sum of the remainders |
| `Compose.Leftover` | packages/core-domain/src/compose.ts:113-132 | the leftover is at most one per share, and no share with a zero remainder is topped up |
| `Compose.AllocationMeetsQuota` | packages/core-domain/src/compose.ts:106-132 | the allocation sums to exactly the total, and each entry is the floor or the ceiling of its exact share |
| `Compose.LargestRemainderFirst` | packages/core-domain/src/compose.ts:106-132 | a share rounded up is never passed over by one with a smaller remainder, or a later index on a tie |
| `Compose.AllocationIsMonotone` | packages/core-domain/src/compose.ts:106-132 | a heavier weight never gets fewer; equal weights differ by at most one, the earlier ahead |
| `Compose.OnlyRatiosMatter` | packages/core-domain/src/compose.ts:113-132 | multiplying every weight by one positive number changes nothing, so the scale the weights are written at does not matter |
| `Compose.PickCountsAddUp` | packages/core-domain/src/compose.ts:163-201 | one each plus the allocation: every pick count is at least 1, they sum to the count, and they follow the weights |
| `Compose.PicksFollowWeights` | packages/core-domain/src/compose.ts:177-194 | each pick count is less than one away from one plus the exact share of the rest |
| `Compose.DoubleWeightSameQuestions` | packages/core-domain/src/compose.ts:58-59 | four questions for weights 2 and 1 are split two and two |
| `Compose.ComposeSucceedsIff` | packages/core-domain/src/compose.ts:140-201 | composition succeeds exactly under its preconditions, and then covers each required skill in order with the requested number of questions, which is the total score |
| `Compose.ComposedRulesValidIff` | packages/core-domain/src/compose.ts:175-201 | the draw accepts the composed rules exactly when every required band and the exclusion are well formed |
| `Compose.RequiredAre` | packages/core-domain/src/compose.ts:144 | a skill is in the paper exactly when the role requires it |
| `Compose.RequiredInOrder` | packages/core-domain/src/compose.ts:144 | the required skills keep the role's order, each as often as it is listed |
| `Compose.RefusalsAreExact` | packages/core-domain/src/compose.ts:146-175 | each refusal is given exactly for its own reason, and the first that applies |
| `Compose.PaperTestsTheRole` | packages/core-domain/src/compose.ts:185-200 | every question a composed paper serves is tagged with the required skill its rule stands for, lies in that skill's band, is of a wanted kind and was not seen too lately; it scores one mark |
| `Compose.DrawnPaperIsComplete` | packages/core-domain/src/compose.ts:134-201 | drawing every composed rule serves exactly the requested number of questions: never a short paper |
| `Idempotency.ReviveInvertsStringify` | apps/worker/src/idempotency.ts:304-315 | every recorded result, undefined included, is read back as a record of that result |
| `Idempotency.MemoryIdempotencyStore.Get` | apps/worker/src/idempotency.ts:85-93 | an absent or expired key reads as nothing, and an expired one is dropped |
| `Idempotency.MemoryIdempotencyStore.Set` | apps/worker/src/idempotency.ts:95-98 | the record is kept until now plus the time to live |
| `Idempotency.MemoryIdempotencyStore.Delete` | apps/worker/src/idempotency.ts:100-103 | the key is gone |
| `Idempotency.StoreKeepsUntilExpiry` | apps/worker/src/idempotency.ts:79-103 | a record is read back exactly until it expires, under its own key only, and then forgotten |
| `Idempotency.LoadReadsTheStore` | apps/worker/src/idempotency.ts:222-224 | a read sees the record exactly while it has not expired, and drops it exactly when it has |
| `Idempotency.JoinerWakes` | apps/worker/src/idempotency.ts:212-220 | a joiner wakes with its leader's outcome and leaves everything else alone |
| `Idempotency.InvokeJoinsOrLeads` | apps/worker/src/idempotency.ts:207-237 | a call with a bad key fails at once, one whose key is busy joins the call at work, any other leads and makes its key busy |
| `Idempotency.LeaderExecutesOrReplays` | apps/worker/src/idempotency.ts:222-231 | a leader executes exactly when it read no record; otherwise it settles with the record, or throws if that does not decode |
| `Idempotency.FailuresSettle` | apps/worker/src/idempotency.ts:222-242 | a failed read, effect or write settles the call as a throw with the store as it was; the finally clause keeps the outcome |
| `Idempotency.ResultsAreEarned` | apps/worker/src/idempotency.ts:222-243 | in every run a leader returns a value only if it recorded that value, or replayed it from a record |
| `Idempotency.FinallyFreesKey` | apps/worker/src/idempotency.ts:237-242 | the finally clause frees exactly the leader's own key |
| `Idempotency.StepKeepsInv` | apps/worker/src/idempotency.ts:202-243 | every step from one await to the next keeps the seven-part invariant tying the in-flight map, the calls, the store and the history |
| `Idempotency.RunKeepsInv` | apps/worker/src/idempotency.ts:202-243 | that invariant holds under every interleaving |
| `Idempotency.SingleFlight` | apps/worker/src/idempotency.ts:188-243 | at most one execution per key is in progress |
| `Idempotency.JoinerGetsLeadersOutcome` | apps/worker/src/idempotency.ts:212-220 | a call that joined ends with the outcome of a leader of its own key, failure included |
| `Idempotency.FailureLeavesNoTrace` | apps/worker/src/idempotency.ts:197-243 | a record was left by a failed call exactly when its write took effect and then threw, by a successful one exactly otherwise; a key is busy exactly while a leader for it is at work |
| `Idempotency.LostWriteLeavesRecord` | apps/worker/src/idempotency.ts:231-234 | a run in which a call throws and leaves a record: the write took effect and its answer was lost |
| `Idempotency.NoReexecutionBeforeExpiry` | apps/worker/src/idempotency.ts:222-243 | after a recorded success no execution for that key starts before the record expires |
| `Idempotency.ReplayReturnsTheRecord` | apps/worker/src/idempotency.ts:222-243 | a read made before the record expires replays that very result |
| `Prelude.WhitespaceIs` | apps/worker/src/idempotency.ts:284 | what counts as whitespace, by code point |
| `JobId.SplitIs` | apps/worker/src/idempotency.ts:289 | splitting yields exactly what stands between separators |
| `JobId.AcceptedKeysAre` | apps/worker/src/idempotency.ts:274-297 | a key is accepted exactly when it has 1 to 512 characters, no whitespace, and no segment undefined or null |
| `JobId.TwoPassesAreOneEscape` | apps/worker/src/idempotency.ts:263-265 | the two replace-all passes equal one character-by-character escape |
| `JobId.UnescapeInverts` | apps/worker/src/idempotency.ts:252-265 | the escape has a left inverse |
| `JobId.EscapeHasNoColon` | apps/worker/src/idempotency.ts:244-265 | no escaped string contains a colon |
| `JobId.JobIdIsReversible` | apps/worker/src/idempotency.ts:244-297 | every accepted key gets an id without a colon, from which the key is recovered |
| `JobId.JobIdIsInjective` | apps/worker/src/idempotency.ts:257-265 | two accepted keys never share an id |
| `JobId.SwappedPassesCollide` | apps/worker/src/idempotency.ts:260-261 | with the passes swapped, a colon and its escape both become %253A between any two plain strings, so two keys share an id |
| `BankJobs.BankJob.StartBankJob` | packages/db/src/bank-jobs.ts:232-245 | a job starts exactly when it has not finished; its first start is stamped once |
| `BankJobs.BankJob.AppendProblems` | packages/db/src/bank-jobs.ts:248-264 | the stored list is extended to at most 1000 and overflow is flagged |
| `BankJobs.BankJob.RecordParseProblems` | packages/db/src/bank-jobs.ts:266-279 | problems are appended and each distinct index counts as one skipped; no problems change nothing |
| `BankJobs.BankJob.AdvanceImport` | packages/db/src/bank-jobs.ts:287-304 | the checkpoint moves, one counter is raised, problems are appended |
| `BankJobs.BankJob.FinishBankJob` | packages/db/src/bank-jobs.ts:307-328 | the job has succeeded and its input is cleared |
| `BankJobs.BankJob.FailBankJob` | packages/db/src/bank-jobs.ts:331-343 | the job has failed with a message of at most 2000 characters, and its input is cleared |
| `BankJobs.AppendKeepsFirst` | packages/db/src/bank-jobs.ts:247-264 | the first 1000 of what was reported, extended, are the first 1000 of what is reported then |
| `BankJobs.SkippedThen` | packages/db/src/bank-jobs.ts:273 | another problem of an item already skipped leaves the count, any other raises it by one |
| `BankJobs.SkippedIsFirstMentions` | packages/db/src/bank-jobs.ts:273 | the count is the number of problems that are the first to name their index |
| `BankJobs.RowIsStamped` | packages/db/src/bank-jobs.ts:306-343 | in every run the file is kept exactly until the job finishes, a failure is there exactly when it failed, and the start and finish stamps match the status |
| `BankJobs.StartedOnce` | packages/db/src/bank-jobs.ts:239 | in every run the first start is stamped once: redeliveries do not move it |
| `BankJobs.FailureIsReported` | packages/db/src/bank-jobs.ts:331-343 | a failed job says when, and why as far as 2000 characters go |
| `BankJobs.DeliveryStarts` | apps/worker/src/jobs/bank-job.ts:266-281 | a delivery of an unfinished job starts it from its checkpoint and knows whether it is the last; a finished job is left alone |
| `BankJobs.ClaimDispatches` | packages/db/migrations/0010_bank_jobs.sql:104-117 | a claim moves work that has not started to dispatched and leaves every other row alone |
| `BankJobs.RunKeepsInv` | apps/worker/src/jobs/bank-job.ts:155-223 | checkpoint, counters, problems and bank agree in every state of every run of deliveries, crashes, lost answers and retries |
| `BankJobs.AcceptedIs` | apps/worker/src/jobs/bank-transfer.ts:288-315 | the positions written are increasing, are exactly those not refused, and with the reports account for every position, plus those both written and reported |
| `BankJobs.WrittenAtMostOnce` | packages/db/src/bank-jobs.ts:12-17 | in every run each item is written at most once, and the written items are exactly the accepted ones before the checkpoint |
| `BankJobs.CountersBalance` | packages/db/src/bank-jobs.ts:287-304 | created plus skipped, less the distinct items refused by the parse, equals the checkpoint exactly when no item was both committed without an answer and reported as refused; in general it exceeds it by the number of such items |
| `BankJobs.LostAnswerCountsTwice` | apps/worker/src/jobs/bank-transfer.ts:291-314 | a run in which one lost commit answer makes the counters exceed the checkpoint |
| `BankJobs.FirstThousandProblems` | packages/db/src/bank-jobs.ts:248-304 | in every run the stored problems are the first 1000 ever reported, in order, and the flag says exactly whether there were more |
| `BankJobs.FinishedIsFinal` | packages/db/src/bank-jobs.ts:227-245 | a finished job stays finished: no later delivery touches the bank, the checkpoint, the counters or the problems |
| `BankJobs.LostFinishFails` | packages/db/src/bank-jobs.ts:331-343 | a run in which a succeeded job is marked failed: the finish committed, its answer was lost on the final attempt, and the handler failed the job |
| `BankJobs.SucceededStaysIff` | apps/worker/src/jobs/bank-job.ts:278-302 | a succeeded job stays succeeded through every continuation exactly when no error is on its way out of the final attempt's worker |
| `BankJobs.FailedStays` | packages/db/src/bank-jobs.ts:331-343 | a failed job is never marked succeeded |
| `BankJobs.SucceededIsComplete` | apps/worker/src/jobs/bank-job.ts:192-223 | a succeeded job decided every item of its file and recorded its parse problems |
| `SkillScores.RoundsToNearest` | packages/core-domain/src/round.ts:16-21 | no multiple of a millionth is nearer than the rounded value, and of two equally near the larger is taken |
| `SkillScores.RoundingIsMonotone` | packages/core-domain/src/round.ts:16-21 | rounding keeps order |
| `SkillScores.NegativesMirror` | packages/core-domain/src/round.ts:16-21 | a negative number is rounded as its mirror image |
| `SkillScores.OnlyFiniteIsRounded` | packages/core-domain/src/round.ts:16-21 | rounding refuses exactly the infinities and NaN |
| `SkillScores.WellFormedQuestions` | packages/core-domain/src/skill-scores.ts:33-61 | a question is well formed exactly when its score lies between nothing and its maximum and no weight given is negative |
| `SkillScores.AddMarks` | packages/core-domain/src/skill-scores.ts:62-69 | the inner loop adds a question's weighted marks once to each of its distinct skills, and stops exactly on a bad weight |
| `SkillScores.RollUpSkillScores` | packages/core-domain/src/skill-scores.ts:51-79 | the loops accept exactly the well-formed input, refuse the first bad question for what is wrong with it, and compute for each assessed skill the rounded plain ratio of its marks |
| `SkillScores.WeightFactorsOut` | packages/core-domain/src/skill-scores.ts:62-69 | the weighted totals of a skill are its plain totals times its weight |
| `SkillScores.WeightedMarks` | packages/core-domain/src/skill-scores.ts:71-77 | marks are available exactly when weight and maximum are not zero, and then the weight cancels |
| `SkillScores.RoundedEntry` | packages/core-domain/src/skill-scores.ts:71-77 | a skill is omitted exactly when it is not assessed; otherwise its entry is the rounded ratio |
| `SkillScores.QuestionAdds` | packages/core-domain/src/skill-scores.ts:62-69 | a question adds its score and its maximum to each skill it carries, and to no other |
| `SkillScores.OneQuestionReport` | packages/core-domain/src/skill-scores.ts:71-77 | one question's skill is reported as its score over its maximum, to six places, exactly when its weight and its maximum are not zero |
| `SkillScores.ProportionsInUnitInterval` | packages/core-domain/src/skill-scores.ts:39-41 | every reported proportion lies between 0 and 1 |
| `SkillScores.RollUpIgnoresOrder` | packages/core-domain/src/skill-scores.ts:58-69 | the order of the questions does not matter, neither for acceptance nor for the result |
| `SkillScores.RollUpIgnoresRepeatedTags` | packages/core-domain/src/skill-scores.ts:62-69 | how often or in what order a question lists its skills does not matter |
| `SkillScores.RaisingAScoreNeverLowers` | packages/core-domain/src/skill-scores.ts:51-79 | raising one score never lowers any skill, and never adds or drops one |
| `AttemptState.EdgesAreEvents` | packages/core-domain/src/attempt-state.ts:70-155 | the table allows a to b exactly when some event takes a to b |
| `AttemptState.EventsOfEdge` | packages/core-domain/src/attempt-state.ts:115-155 | each edge is taken by exactly the events that stand for it: only grading that asks for no review finalises from auto_graded, only a non-blank reason voids; and each refusal says why |
| `AttemptState.MovesHaveCauses` | packages/core-domain/src/attempt-state.ts:115-155 | every move of every run was made by an accepted event of the run that stands for that edge |
| `AttemptState.StatusesAreEarned` | packages/core-domain/src/attempt-state.ts:103-155 | over every event sequence an attempt is submitted or expired only by that event, reviewed only when grading asked for it, finalised only by grading that did not or by the review's end, voided only for a reason |
| `AttemptState.TerminalIsStuck` | packages/core-domain/src/attempt-state.ts:87-89 | a status is terminal exactly when every event is refused in it |
| `AttemptState.Visited` | packages/core-domain/src/attempt-state.ts:115-155 | a run's path starts where the attempt was |
| `AttemptState.RunsMoveForward` | packages/core-domain/src/attempt-state.ts:70-155 | over every event sequence each accepted event follows an edge and strictly raises a rank, so at most six are accepted |
| `AttemptState.VoidedIsAbsorbing` | packages/core-domain/src/attempt-state.ts:70-155 | nothing follows voided on any path |
| `AttemptState.FinalisedWasGraded` | packages/core-domain/src/attempt-state.ts:70-155 | a path to finalised is one of four: started, closed in exactly one way, auto-graded, perhaps reviewed |
| `CandidateView.CandidateCodingBrief` | packages/contracts/src/questions.ts:1159-1179 | the counting loop reports how many cases are samples and how many hidden, together all of them |
| `CandidateView.ViewRevealsExactlyPublic` | packages/contracts/src/questions.ts:1198-1223 | two versions have equal views exactly when they agree on the public parts that kind shows |
| `CandidateView.PayloadShowsVersion` | packages/contracts/src/questions.ts:1148-1223 | what a candidate is served is what the version says, key by key: scores, time and prompt; every option's id, ordinal and body in order; the brief's limits, files and case counts; and nothing more |
| `CandidateView.CaseCountIs` | packages/contracts/src/questions.ts:1161-1166 | the two counts are the numbers of sample and of other positions |
| `CandidateView.KindsAreNamed` | packages/contracts/src/questions.ts:124-151 | the kinds go by the names of the contract, each its own, in their three groups |
| `CandidateView.AnswerKeysDoNotInterfere` | packages/contracts/src/questions.ts:1132-1223 | replacing every answer-key field in any way leaves the view of every kind as it was |
| `CandidateView.ViewPassesDetectorIff` | packages/contracts/src/questions.ts:1193-1223 | the detector finds nothing in a candidate's payload exactly when no starter-code language is itself a listed name |
| `CandidateView.DetectorReportsPublicView` | packages/contracts/src/questions.ts:796 | a coding version whose starter language is named pattern: the detector reports its view |
| `CandidateView.PayloadCleanIff` | packages/contracts/src/questions.ts:1198-1223 | no listed key occurs at any depth of a payload exactly under that condition |
| `Audience.FindAnswerKeyFields` | packages/contracts/src/audience.ts:227-247 | the recursive method with its loops computes the paths the laws below are about |
| `Audience.NamedIsFound` | packages/contracts/src/audience.ts:227-247 | every way into a payload that ends in a listed key is reported, by its rendered path |
| `Audience.FoundIsNamed` | packages/contracts/src/audience.ts:227-247 | every reported path leads to a listed key |
| `Audience.EmptyIffClean` | packages/contracts/src/audience.ts:213-247 | the detector returns nothing exactly when no listed key occurs at any depth |
| `Audience.BoundaryNamesAreReported` | packages/contracts/src/audience.ts:113-142 | each of the 28 names is reported where it stands whatever its value, and a scalar under any other name is not |
| `Audience.PathsAreReadable` | packages/contracts/src/audience.ts:227-247 | paths are written with dots and bracketed indices, in the order of a walk |
| `Audience.IndicesAreDecimal` | packages/contracts/src/audience.ts:229 | an index is written in decimal without leading zeros |
| `AuthorView.VersionKeysReported` | packages/contracts/src/questions.ts:1057-1077 | the detector reports the explanation and the answer keys of every author's version |
| `AuthorView.OptionsReported` | packages/contracts/src/questions.ts:996-1005 | of every option of an author's version it reports the correctness, the score and the rationale |
| `AuthorView.CodingSpecReported` | packages/contracts/src/questions.ts:1008-1021 | of a coding spec it reports the solution and the checker |
| `AuthorView.TestCasesReported` | packages/contracts/src/questions.ts:1024-1036 | of every test case, samples included, it reports what is expected and what is asserted |
| `AuthorView.AnswerKeysReported` | packages/contracts/src/questions.ts:1039-1047 | of every answer key it reports how it matches, what, and how closely |

## Left out

- HTTP, WebSocket, queue, database and cache plumbing, logging, metrics and telemetry.
- Cryptography and the ticket envelope: an abstract verifier yields the session and the issue instant.
- Yjs internals: merging, garbage collection and awareness contents; an `applyUpdate` that throws is taken to have changed nothing.
- The end of `close` (`terminate`, `connections.clear`, `rooms.clear`) and close events after it: the room theorems are stated up to the drain. `Tickets.Gatekeeper.EndClose` does model the clearing of the ticket store.
- Reaper and heartbeat delays: a timer may fire at any time while it is armed.
- `idempotent` as imperative code: it is a state machine over await points, since what matters is the interleaving; a caller's `decode` function is the choice whether the recorded value decodes.
- Guarantees across processes for the ticket store and for `idempotent`, and the Redis store.
- Export jobs, file parsing and the claim query's staleness rule; the model lets a claim happen at any time.
- Uniqueness of questions between the rules of one paper: each rule is drawn alone, as in the source.
- IEEE-754 rounding in the allocation and in the roll-up.
- Compose.ComposeSucceedsIff: does not model weights that are not numbers, which the role schema excludes.
- Convergence.QuietReplicaIsTheDocument: the client is an assumption about stock y-websocket peers, which are not part of the repository.
- AuthorView.VersionKeysReported: instants are numbers here and ISO strings in the source; the detector looks at keys only. The author's question record around the version is not modelled.
- Question life cycle, permissions, deadlines, backoff, dead letters and settings merge: each is settled by reading one branch.
- Configuration, schemas, API generation, content security policy and the front end.

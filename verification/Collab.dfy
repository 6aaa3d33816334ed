/**
 The collaboration protocol as a state machine (apps/collab/src/server.ts and rooms.ts): rooms, their
 reapers, connections, frame relay, heartbeat and drain. A document is a set of updates; a state vector
 is the set its sender holds. `R` and `P` are the identities of room and peer objects.
 */
module Collab {
  import opened Prelude
  import Codec

  type Bytes = Codec.Bytes

  type Updates = set<nat>

  /** What the server sends. */
  datatype Message =
    | Step1(stateVector: Updates)
    | Step2(update: Updates)
    | Update(update: Updates)
    | Aware(payload: Bytes)

  /** What a frame turns out to be once decoded; sync step 2 and update are handled alike. */
  datatype Inbound =
    | AskSync(stateVector: Updates)
    | SyncData(update: Updates)
    | Presence(payload: Bytes)
    | QueryPresence
    | Unknown
    | Undecodable
    | NotBinary

  datatype Sock = Open | Closing | Closed

  /** A connection. `declared` and `received` record what the peer has told the server. */
  datatype Peer<R> = Peer(
    room: R, sock: Sock, alive: bool, sent: seq<Message>, declared: Option<Updates>, received: Updates)

  /** A room. The awareness map is in insertion order, as it is replayed. */
  datatype Room<P> = Room(
    key: string, doc: Updates, peers: set<P>, lastAwareness: seq<(P, Bytes)>,
    joined: bool, reaper: bool, destroyed: bool)

  datatype Server<R, P> = Server(
    rooms: map<string, R>, room: map<R, Room<P>>, peer: map<P, Peer<R>>, connections: set<P>,
    draining: bool, reportedSize: int)

  // ---- Presence --------------------------------------------------------------------------------

  function Published<P(==)>(l: seq<(P, Bytes)>, p: P, payload: Bytes): seq<(P, Bytes)> {
    if l == [] then [(p, payload)]
    else if l[0].0 == p then [(p, payload)] + l[1..]
    else [l[0]] + Published(l[1..], p, payload)
  }

  function Retracted<P(==)>(l: seq<(P, Bytes)>, p: P): seq<(P, Bytes)> {
    if l == [] then [] else (if l[0].0 == p then [] else [l[0]]) + Retracted(l[1..], p)
  }

  /** A room once a peer has published. */
  function Noted<P(==)>(room: Room<P>, p: P, payload: Bytes): Room<P> {
    room.(lastAwareness := Published(room.lastAwareness, p, payload))
  }

  /** What the others last published, for one peer. */
  function Replay<P(==)>(l: seq<(P, Bytes)>, p: P): seq<Message> {
    if l == [] then []
    else Replay(l[..|l| - 1], p) + if l[|l| - 1].0 == p then [] else [Aware(l[|l| - 1].1)]
  }

  // ---- The steps -------------------------------------------------------------------------------

  /** `PeerConnection.send`: dropped unless the socket is open. */
  function Sent<R>(p: Peer<R>, msgs: seq<Message>): Peer<R> {
    if p.sock == Open then p.(sent := p.sent + msgs) else p
  }

  /** `socket.close()` or `terminate()`: the close event follows later. */
  function ClosingPeer<R>(p: Peer<R>): Peer<R> {
    if p.sock == Open then p.(sock := Closing) else p
  }

  ghost predicate Wired<R, P>(s: Server<R, P>) {
    && (forall p :: p in s.peer ==> s.peer[p].room in s.room)
    && (forall k :: k in s.rooms ==> s.rooms[k] in s.room)
    && s.connections <= s.peer.Keys
  }

  /** The room `acquire` returns: the one held under the key, or a new object `r`. */
  function RoomFor<R, P>(s: Server<R, P>, key: string, r: R): R {
    if key in s.rooms then s.rooms[key] else r
  }

  function NewRoom<P>(key: string): Room<P> {
    Room(key, {}, {}, [], false, false, false)
  }

  /** A room once a peer has come in: its reaper is off and it counts as joined. */
  function Entered<P>(room: Room<P>, p: P): Room<P> {
    room.(reaper := false, peers := room.peers + {p}, joined := true)
  }

  /** A new connection, greeted with step 1 and with what the others last published. */
  function NewPeer<R, P(==)>(r: R, room: Room<P>, p: P): Peer<R> {
    Peer(r, Open, true, [Step1(room.doc)] + Replay(room.lastAwareness, p), None, {})
  }

  /** The room `acquire` finds, or makes. */
  ghost function Joining<R, P>(s: Server<R, P>, key: string): Room<P>
    requires Wired(s)
  {
    if key in s.rooms then s.room[s.rooms[key]] else NewRoom(key)
  }

  /** That room as the new peer finds it: `acquire`, then `attach`. */
  ghost function JoinedRoom<R, P>(s: Server<R, P>, key: string, p: P): Room<P>
    requires Wired(s)
  {
    Entered(Joining(s, key), p)
  }

  ghost function Accepted<R, P>(s: Server<R, P>, key: string, r: R, p: P): Server<R, P>
    requires Wired(s)
  {
    var target, room := RoomFor(s, key, r), JoinedRoom(s, key, p);
    s.(rooms := s.rooms[key := target],
       reportedSize := if key in s.rooms then s.reportedSize else |s.rooms| + 1,
       room := s.room[target := room],
       connections := s.connections + {p},
       peer := s.peer[p := NewPeer(target, room, p)])
  }

  /** One frame to each of some peers but the origin. */
  ghost function Relayed<R, P>(peer: map<P, Peer<R>>, peers: set<P>, msg: Message, origin: P): map<P, Peer<R>> {
    map q | q in peer :: if q in peers && q != origin then Sent(peer[q], [msg]) else peer[q]
  }

  /** `Room.broadcast`: one frame to every attached peer but the origin. */
  ghost function Broadcast<R, P>(s: Server<R, P>, r: R, msg: Message, origin: P): map<P, Peer<R>>
    requires r in s.room
  {
    Relayed(s.peer, s.room[r].peers, msg, origin)
  }

  ghost function Handled<R, P>(s: Server<R, P>, p: P, frame: Inbound): Server<R, P>
    requires Wired(s) && p in s.peer
  {
    var peer := s.peer[p];
    var r := peer.room;
    var room := s.room[r];
    match frame
    case AskSync(sv) =>
      s.(peer := s.peer[p := Sent(peer, [Step2(room.doc - sv)]).(declared := Some(sv))])
    case SyncData(u) =>
      s.(room := s.room[r := room.(doc := room.doc + u)],
         peer := Broadcast(s, r, Update(u), p)[p := peer.(received := peer.received + u)])
    case Presence(payload) =>
      s.(room := s.room[r := Noted(room, p, payload)],
         peer := Broadcast(s, r, Aware(payload), p))
    case QueryPresence => s.(peer := s.peer[p := Sent(peer, Replay(room.lastAwareness, p))])
    case Unknown => s
    case Undecodable => s.(peer := s.peer[p := ClosingPeer(peer)])
    case NotBinary => s.(peer := s.peer[p := ClosingPeer(peer)])
  }

  /** A room once a peer has gone; the last to go starts its reaper. */
  function Departed<P(==)>(room: Room<P>, p: P): Room<P> {
    var left := room.peers - {p};
    room.(peers := left, lastAwareness := Retracted(room.lastAwareness, p), reaper := left == {} || room.reaper)
  }

  /** The close event: the connection is dropped and an emptied room starts its reaper. */
  ghost function Disconnected<R, P>(s: Server<R, P>, p: P): Server<R, P>
    requires Wired(s) && p in s.peer
  {
    var r := s.peer[p].room;
    s.(connections := s.connections - {p},
       peer := s.peer[p := s.peer[p].(sock := Closed)],
       room := s.room[r := Departed(s.room[r], p)])
  }

  function DestroyedRoom<P>(room: Room<P>): Room<P> {
    room.(reaper := false, peers := {}, lastAwareness := [], destroyed := true)
  }

  /** A key is dropped with the room it holds. */
  ghost function Released<R, P>(s: Server<R, P>, key: string): Server<R, P>
    requires key in s.rooms && s.rooms[key] in s.room
  {
    s.(rooms := s.rooms - {key},
       room := s.room[s.rooms[key] := DestroyedRoom(s.room[s.rooms[key]])],
       reportedSize := |s.rooms - {key}|)
  }

  /** The reaper: an empty room is released by key, whichever object the key then holds. */
  ghost function Reaped<R, P>(s: Server<R, P>, r: R): Server<R, P>
    requires Wired(s) && r in s.room
  {
    var key := s.room[r].key;
    if s.room[r].peers != {} || key !in s.rooms then s else Released(s, key)
  }

  function BeatenPeer<R>(p: Peer<R>): Peer<R> {
    if p.alive then p.(alive := false) else ClosingPeer(p)
  }

  /** One heartbeat: silent connections are cut, the others are pinged. */
  ghost function Beaten<R, P>(s: Server<R, P>): Server<R, P> {
    s.(peer := map p | p in s.peer :: if p in s.connections then BeatenPeer(s.peer[p]) else s.peer[p])
  }

  /** The drain: no more upgrades, and every connection is asked to close. */
  ghost function Draining<R, P>(s: Server<R, P>): Server<R, P> {
    s.(draining := true,
       peer := map p | p in s.peer :: if p in s.connections then ClosingPeer(s.peer[p]) else s.peer[p])
  }

  datatype Step<R, P> =
    | Accept(key: string, newRoom: R, newPeer: P)
    | Frame(p: P, frame: Inbound)
    | PeerClosing(p: P)
    | CloseEvent(p: P)
    | Reap(r: R)
    | Pong(p: P)
    | Heartbeat
    | Drain

  /** Frames may still arrive while a socket is closing; the close event comes once. */
  ghost predicate Enabled<R, P>(s: Server<R, P>, step: Step<R, P>) {
    match step
    case Accept(key, r, p) => !s.draining && (key in s.rooms || r !in s.room) && p !in s.peer
    case Frame(p, _) => p in s.peer && s.peer[p].sock != Closed
    case PeerClosing(p) => p in s.peer
    case CloseEvent(p) => p in s.peer && s.peer[p].sock != Closed
    case Reap(r) => r in s.room && s.room[r].reaper
    case Pong(p) => p in s.peer
    case Heartbeat => !s.draining
    case Drain => true
  }

  ghost function Next<R, P>(s: Server<R, P>, step: Step<R, P>): Server<R, P>
    requires Wired(s) && Enabled(s, step)
  {
    match step
    case Accept(key, r, p) => Accepted(s, key, r, p)
    case Frame(p, frame) => Handled(s, p, frame)
    case PeerClosing(p) => s.(peer := s.peer[p := ClosingPeer(s.peer[p])])
    case CloseEvent(p) => Disconnected(s, p)
    case Reap(r) => Reaped(s, r)
    case Pong(p) => s.(peer := s.peer[p := s.peer[p].(alive := true)])
    case Heartbeat => Beaten(s)
    case Drain => Draining(s)
  }

  ghost predicate StepsTo<R, P>(s: Server<R, P>, step: Step<R, P>, t: Server<R, P>) {
    Wired(s) && Enabled(s, step) && t == Next(s, step)
  }

  // ---- The room invariant ----------------------------------------------------------------------

  ghost predicate RoomOk<R, P>(s: Server<R, P>, r: R) {
    && r in s.room
    && var room := s.room[r];
       if room.destroyed then room.peers == {} && !room.reaper
       else
         && room.key in s.rooms && s.rooms[room.key] == r
         && (room.reaper <==> room.peers == {})
         && (forall p :: p in room.peers ==> p in s.connections && p in s.peer && s.peer[p].room == r)
  }

  ghost predicate PeerOk<R, P>(s: Server<R, P>, p: P) {
    && p in s.peer
    && (p in s.connections <==> s.peer[p].sock != Closed)
    && (p in s.connections ==> s.peer[p].room in s.room && p in s.room[s.peer[p].room].peers)
  }

  /** Every key holds a live room of that key. */
  ghost predicate KeysOk<R, P>(s: Server<R, P>) {
    forall k :: k in s.rooms ==> s.rooms[k] in s.room && !s.room[s.rooms[k]].destroyed && s.room[s.rooms[k]].key == k
  }

  ghost predicate RoomsOk<R, P>(s: Server<R, P>) {
    && Wired(s)
    && KeysOk(s)
    && (forall r :: r in s.room ==> RoomOk(s, r))
    && (forall p :: p in s.peer ==> PeerOk(s, p))
    && s.reportedSize == |s.rooms|
  }

  /** Two states that differ only in documents, presence, frames and heartbeat marks. */
  ghost predicate SameShape<R, P>(s: Server<R, P>, t: Server<R, P>) {
    && t.rooms == s.rooms && t.connections == s.connections && t.reportedSize == s.reportedSize
    && SameRooms(s.room, t.room) && SamePeers(s.peer, t.peer)
  }

  ghost predicate SameRooms<R, P>(m: map<R, Room<P>>, n: map<R, Room<P>>) {
    && n.Keys == m.Keys
    && forall r :: r in m ==>
         n[r].key == m[r].key && n[r].peers == m[r].peers && n[r].reaper == m[r].reaper
             && n[r].destroyed == m[r].destroyed
  }

  ghost predicate SamePeers<R, P>(m: map<P, Peer<R>>, n: map<P, Peer<R>>) {
    && n.Keys == m.Keys
    && forall p :: p in m ==> n[p].room == m[p].room && (n[p].sock == Closed <==> m[p].sock == Closed)
  }

  lemma SameShapeKeepsRooms<R, P>(s: Server<R, P>, t: Server<R, P>)
    requires RoomsOk(s) && SameShape(s, t)
    ensures RoomsOk(t)
  {
    forall r | r in t.room
      ensures RoomOk(t, r)
    {
      assert RoomOk(s, r);
    }
    forall p | p in t.peer
      ensures PeerOk(t, p)
    {
      assert PeerOk(s, p);
    }
  }

  predicate Reshapes<R, P>(step: Step<R, P>) {
    step.Accept? || step.CloseEvent? || step.Reap?
  }

  lemma BroadcastKeepsPeers<R, P>(s: Server<R, P>, r: R, msg: Message, origin: P)
    requires r in s.room
    ensures SamePeers(s.peer, Broadcast(s, r, msg, origin))
  {
  }

  lemma FrameKeepsShape<R, P>(s: Server<R, P>, p: P, frame: Inbound, t: Server<R, P>)
    requires Wired(s) && p in s.peer && s.peer[p].sock != Closed && t == Handled(s, p, frame)
    ensures SameShape(s, t)
  {
    FrameKeepsRoomsMap(s, p, frame, t);
    FrameKeepsPeersMap(s, p, frame, t);
  }

  lemma FrameKeepsRoomsMap<R, P>(s: Server<R, P>, p: P, frame: Inbound, t: Server<R, P>)
    requires Wired(s) && p in s.peer && t == Handled(s, p, frame)
    ensures SameRooms(s.room, t.room)
  {
  }

  lemma FrameKeepsPeersMap<R, P>(s: Server<R, P>, p: P, frame: Inbound, t: Server<R, P>)
    requires Wired(s) && p in s.peer && s.peer[p].sock != Closed && t == Handled(s, p, frame)
    ensures SamePeers(s.peer, t.peer)
  {
    match frame
    case SyncData(u) => BroadcastKeepsPeers(s, s.peer[p].room, Update(u), p);
    case Presence(payload) => BroadcastKeepsPeers(s, s.peer[p].room, Aware(payload), p);
    case _ =>
  }

  lemma OtherStepsKeepShape<R, P>(s: Server<R, P>, step: Step<R, P>)
    requires Wired(s) && Enabled(s, step) && !Reshapes(step)
    ensures SameShape(s, Next(s, step))
  {
    if step.Frame? {
      FrameKeepsShape(s, step.p, step.frame, Next(s, step));
    }
  }

  lemma AcceptKeepsOthers<R, P>(s: Server<R, P>, key: string, r: R, p: P, t: Server<R, P>)
    requires RoomsOk(s) && (key in s.rooms || r !in s.room) && p !in s.peer && t == Accepted(s, key, r, p)
    ensures forall x :: x in s.room && x != RoomFor(s, key, r) ==> RoomOk(t, x)
    ensures forall q :: q in s.peer ==> PeerOk(t, q)
  {
    forall x | x in s.room && x != RoomFor(s, key, r)
      ensures RoomOk(t, x)
    {
      assert RoomOk(s, x);
    }
    forall q | q in s.peer
      ensures PeerOk(t, q)
    {
      assert PeerOk(s, q);
    }
  }

  lemma AcceptJoins<R, P>(s: Server<R, P>, key: string, r: R, p: P, t: Server<R, P>)
    requires RoomsOk(s) && (key in s.rooms || r !in s.room) && p !in s.peer && t == Accepted(s, key, r, p)
    ensures RoomOk(t, RoomFor(s, key, r)) && PeerOk(t, p)
  {
    assert key in s.rooms ==> RoomOk(s, s.rooms[key]);
  }

  lemma AcceptIsWired<R, P>(s: Server<R, P>, key: string, r: R, p: P, t: Server<R, P>)
    requires RoomsOk(s) && t == Accepted(s, key, r, p)
    ensures Wired(t)
  {
  }

  lemma SizeAfterSet<V>(m: map<string, V>, k: string, v: V)
    ensures |m[k := v]| == |m| + if k in m then 0 else 1
  {
    assert m[k := v].Keys == m.Keys + {k};
  }

  lemma AcceptReportsSize<R, P>(s: Server<R, P>, key: string, r: R, p: P, t: Server<R, P>)
    requires Wired(s) && s.reportedSize == |s.rooms| && t == Accepted(s, key, r, p)
    ensures t.reportedSize == |t.rooms|
  {
    SizeAfterSet(s.rooms, key, RoomFor(s, key, r));
  }

  lemma AcceptKeepsKeys<R, P>(s: Server<R, P>, key: string, r: R, p: P, t: Server<R, P>)
    requires RoomsOk(s) && (key in s.rooms || r !in s.room) && t == Accepted(s, key, r, p)
    ensures KeysOk(t)
  {
    forall k | k in t.rooms
      ensures t.rooms[k] in t.room && !t.room[t.rooms[k]].destroyed && t.room[t.rooms[k]].key == k
    {
      if k != key {
        assert t.rooms[k] == s.rooms[k] != RoomFor(s, key, r);
      }
    }
  }

  lemma AcceptKeepsRooms<R, P>(s: Server<R, P>, key: string, r: R, p: P)
    requires RoomsOk(s) && (key in s.rooms || r !in s.room) && p !in s.peer
    ensures RoomsOk(Accepted(s, key, r, p))
  {
    var t := Accepted(s, key, r, p);
    AcceptKeepsOthers(s, key, r, p, t);
    AcceptJoins(s, key, r, p, t);
    AcceptIsWired(s, key, r, p, t);
    AcceptReportsSize(s, key, r, p, t);
    AcceptKeepsKeys(s, key, r, p, t);
  }

  lemma DisconnectKeepsOneRoom<R, P>(s: Server<R, P>, p: P, t: Server<R, P>, x: R)
    requires RoomsOk(s) && p in s.peer && s.peer[p].sock != Closed && t == Disconnected(s, p) && x in s.room
    ensures RoomOk(t, x)
  {
    assert RoomOk(s, x) && PeerOk(s, p);
  }

  lemma DisconnectKeepsOnePeer<R, P>(s: Server<R, P>, p: P, t: Server<R, P>, q: P)
    requires RoomsOk(s) && p in s.peer && s.peer[p].sock != Closed && t == Disconnected(s, p) && q in s.peer
    ensures PeerOk(t, q)
  {
    assert PeerOk(s, q) && PeerOk(s, p);
  }

  lemma DisconnectKeepsRooms<R, P>(s: Server<R, P>, p: P)
    requires RoomsOk(s) && p in s.peer && s.peer[p].sock != Closed
    ensures RoomsOk(Disconnected(s, p))
  {
    var t := Disconnected(s, p);
    forall x | x in t.room
      ensures RoomOk(t, x)
    {
      assert RoomOk(s, s.peer[p].room);
      DisconnectKeepsOneRoom(s, p, t, x);
    }
    forall q | q in t.peer
      ensures PeerOk(t, q)
    {
      DisconnectKeepsOnePeer(s, p, t, q);
    }
  }

  lemma ReapKeepsOneRoom<R, P>(s: Server<R, P>, r: R, t: Server<R, P>, x: R)
    requires RoomsOk(s) && r in s.room && s.room[r].reaper && t == Reaped(s, r) && x in s.room
    ensures RoomOk(t, x)
  {
    assert RoomOk(s, x) && RoomOk(s, r);
  }

  lemma ReapKeepsOnePeer<R, P>(s: Server<R, P>, r: R, t: Server<R, P>, q: P)
    requires RoomsOk(s) && r in s.room && s.room[r].reaper && t == Reaped(s, r) && q in s.peer
    ensures PeerOk(t, q)
  {
    assert PeerOk(s, q) && RoomOk(s, r);
  }

  lemma ReapKeepsKeys<R, P>(s: Server<R, P>, r: R, t: Server<R, P>)
    requires RoomsOk(s) && r in s.room && s.room[r].reaper && t == Reaped(s, r)
    ensures KeysOk(t) && t.reportedSize == |t.rooms|
  {
    assert RoomOk(s, r);
  }

  lemma ReapIsWired<R, P>(s: Server<R, P>, r: R, t: Server<R, P>)
    requires Wired(s) && r in s.room && t == Reaped(s, r)
    ensures Wired(t) && t.room.Keys == s.room.Keys && t.peer == s.peer
  {
  }

  lemma ReapKeepsRooms<R, P>(s: Server<R, P>, r: R, t: Server<R, P>)
    requires RoomsOk(s) && r in s.room && s.room[r].reaper && t == Reaped(s, r)
    ensures RoomsOk(t)
  {
    ReapKeepsKeys(s, r, t);
    ReapIsWired(s, r, t);
    forall x | x in t.room
      ensures RoomOk(t, x)
    {
      ReapKeepsOneRoom(s, r, t, x);
    }
    forall q | q in t.peer
      ensures PeerOk(t, q)
    {
      ReapKeepsOnePeer(s, r, t, q);
    }
  }

  lemma StepKeepsRooms<R, P>(s: Server<R, P>, step: Step<R, P>)
    requires RoomsOk(s) && Enabled(s, step)
    ensures RoomsOk(Next(s, step))
  {
    if Reshapes(step) {
      match step
      case Accept(key, r, p) => AcceptKeepsRooms(s, key, r, p);
      case CloseEvent(p) => DisconnectKeepsRooms(s, p);
      case Reap(r) => ReapKeepsRooms(s, r, Reaped(s, r));
    } else {
      OtherStepsKeepShape(s, step);
      SameShapeKeepsRooms(s, Next(s, step));
    }
  }

  // ---- What every synced peer has been told -----------------------------------------------------

  /** The updates among some sent frames. */
  ghost function Told(sent: seq<Message>): Updates {
    if sent == [] then {}
    else
      var m := sent[|sent| - 1];
      Told(sent[..|sent| - 1]) + (if m.Step2? then m.update else if m.Update? then m.update else {})
  }

  lemma {:induction false} ToldConcat(a: seq<Message>, b: seq<Message>)
    ensures Told(a + b) == Told(a) + Told(b)
    decreases |b|
  {
    if b == [] {
      assert a + b == a;
    } else {
      var n := |b| - 1;
      assert (a + b)[..|a| + n] == a + b[..n];
      ToldConcat(a, b[..n]);
    }
  }

  /** Everything in the document has reached, or is on its way to, this peer. */
  ghost predicate Covered<R>(p: Peer<R>, doc: Updates) {
    p.sock == Open && p.declared.Some? ==> doc <= p.declared.value + Told(p.sent) + p.received
  }

  ghost predicate SyncOk<R, P>(s: Server<R, P>) {
    forall p :: p in s.peer && p in s.connections && s.peer[p].room in s.room ==>
        Covered(s.peer[p], s.room[s.peer[p].room].doc)
  }

  lemma SendingKeepsCover<R>(p: Peer<R>, msgs: seq<Message>, doc: Updates)
    requires Covered(p, doc)
    ensures Covered(Sent(p, msgs), doc)
  {
    ToldConcat(p.sent, msgs);
  }

  lemma SendingCovers<R>(p: Peer<R>, u: Updates, doc: Updates)
    requires Covered(p, doc)
    ensures Covered(Sent(p, [Update(u)]), doc + u)
  {
    ToldConcat(p.sent, [Update(u)]);
    assert [Update(u)][..0] == [];
    assert Told([Update(u)]) == Told([]) + u;
  }

  lemma AnswerCovers<R>(p: Peer<R>, sv: Updates, doc: Updates)
    ensures Covered(Sent(p, [Step2(doc - sv)]).(declared := Some(sv)), doc)
  {
    ToldConcat(p.sent, [Step2(doc - sv)]);
    assert [Step2(doc - sv)][..0] == [];
    assert Told([Step2(doc - sv)]) == Told([]) + (doc - sv);
  }

  lemma DataCovers<R, P>(s: Server<R, P>, p: P, u: Updates, q: P)
    requires RoomsOk(s) && SyncOk(s) && p in s.peer && q in s.connections
    ensures
      var t := Handled(s, p, SyncData(u));
      q in t.peer && t.peer[q].room in t.room && Covered(t.peer[q], t.room[t.peer[q].room].doc)
  {
    var r := s.peer[p].room;
    assert PeerOk(s, q) && RoomOk(s, r);
    if q != p && s.peer[q].room == r {
      SendingCovers(s.peer[q], u, s.room[r].doc);
    }
  }

  lemma PresenceCovers<R, P>(s: Server<R, P>, p: P, payload: Bytes, q: P)
    requires RoomsOk(s) && SyncOk(s) && p in s.peer && q in s.connections
    ensures
      var t := Handled(s, p, Presence(payload));
      q in t.peer && t.peer[q].room in t.room && Covered(t.peer[q], t.room[t.peer[q].room].doc)
  {
    SendingKeepsCover(s.peer[q], [Aware(payload)], s.room[s.peer[q].room].doc);
  }

  /** A frame answered to its sender alone. */
  lemma ReplyCovers<R, P>(s: Server<R, P>, p: P, frame: Inbound, t: Server<R, P>)
    requires Wired(s) && SyncOk(s) && p in s.connections && t == Handled(s, p, frame) && !frame.SyncData?
             && !frame.Presence?
    ensures p in t.peer && t.room == s.room && t.peer == s.peer[p := t.peer[p]] && t.peer[p].room == s.peer[p].room
    ensures Covered(t.peer[p], s.room[s.peer[p].room].doc)
  {
    var r := s.peer[p].room;
    match frame
    case AskSync(sv) => AnswerCovers(s.peer[p], sv, s.room[r].doc);
    case QueryPresence => SendingKeepsCover(s.peer[p], Replay(s.room[r].lastAwareness, p), s.room[r].doc);
    case _ =>
  }

  lemma FrameKeepsSync<R, P>(s: Server<R, P>, p: P, frame: Inbound)
    requires RoomsOk(s) && SyncOk(s) && p in s.peer && s.peer[p].sock != Closed
    ensures SyncOk(Handled(s, p, frame))
  {
    match frame
    case SyncData(u) =>
      forall q | q in s.connections {
        DataCovers(s, p, u, q);
      }
    case Presence(payload) =>
      forall q | q in s.connections {
        PresenceCovers(s, p, payload, q);
      }
    case _ =>
      assert PeerOk(s, p);
      ReplyCovers(s, p, frame, Handled(s, p, frame));
  }

  lemma AcceptKeepsSync<R, P>(s: Server<R, P>, key: string, r: R, p: P, t: Server<R, P>)
    requires RoomsOk(s) && SyncOk(s) && (key in s.rooms || r !in s.room) && p !in s.peer && t == Accepted(s, key, r, p)
    ensures SyncOk(t)
  {
  }

  lemma DisconnectKeepsSync<R, P>(s: Server<R, P>, p: P, t: Server<R, P>)
    requires Wired(s) && SyncOk(s) && p in s.peer && t == Disconnected(s, p)
    ensures SyncOk(t)
  {
  }

  lemma ReapKeepsSync<R, P>(s: Server<R, P>, r: R, t: Server<R, P>)
    requires Wired(s) && SyncOk(s) && r in s.room && t == Reaped(s, r)
    ensures SyncOk(t)
  {
  }

  lemma QuietStepKeepsSync<R, P>(s: Server<R, P>, step: Step<R, P>)
    requires RoomsOk(s) && SyncOk(s) && Enabled(s, step) && !Reshapes(step) && !step.Frame?
    ensures SyncOk(Next(s, step))
  {
  }

  lemma StepKeepsSync<R, P>(s: Server<R, P>, step: Step<R, P>)
    requires RoomsOk(s) && SyncOk(s) && Enabled(s, step)
    ensures SyncOk(Next(s, step))
  {
    if step.Frame? {
      FrameKeepsSync(s, step.p, step.frame);
    } else if Reshapes(step) {
      match step
      case Accept(key, r, p) => AcceptKeepsSync(s, key, r, p, Accepted(s, key, r, p));
      case CloseEvent(p) => DisconnectKeepsSync(s, p, Disconnected(s, p));
      case Reap(r) => ReapKeepsSync(s, r, Reaped(s, r));
    } else {
      QuietStepKeepsSync(s, step);
    }
  }

  lemma StepIsOk<R, P>(s: Server<R, P>, step: Step<R, P>, t: Server<R, P>)
    requires RoomsOk(s) && SyncOk(s) && StepsTo(s, step, t)
    ensures RoomsOk(t) && SyncOk(t)
  {
    StepKeepsRooms(s, step);
    StepKeepsSync(s, step);
  }

  // ---- Runs ------------------------------------------------------------------------------------

  function Idle<R, P>(): Server<R, P> {
    Server(map[], map[], map[], {}, false, 0)
  }

  ghost predicate IsRun<R, P>(run: seq<Server<R, P>>, steps: seq<Step<R, P>>) {
    && |run| == |steps| + 1 && run[0] == Idle()
    && forall i: nat :: i < |steps| ==> StepsAt(run, steps, i)
  }

  ghost predicate StepsAt<R, P>(run: seq<Server<R, P>>, steps: seq<Step<R, P>>, i: nat) {
    i < |steps| && i + 1 < |run| && StepsTo(run[i], steps[i], run[i + 1])
  }

  lemma {:induction false} RunIsOk<R, P>(run: seq<Server<R, P>>, steps: seq<Step<R, P>>, i: nat)
    requires IsRun(run, steps) && i < |run|
    ensures RoomsOk(run[i]) && SyncOk(run[i])
  {
    if i > 0 {
      var s, step := run[i - 1], steps[i - 1];
      RunIsOk(run, steps, i - 1);
      assert StepsAt(run, steps, i - 1);
      StepIsOk(s, step, run[i - 1 + 1]);
    }
  }

  lemma ExtendRun<R, P>(run: seq<Server<R, P>>, steps: seq<Step<R, P>>, step: Step<R, P>, t: Server<R, P>)
    requires IsRun(run, steps) && StepsTo(run[|steps|], step, t)
    ensures IsRun(run + [t], steps + [step])
  {
    var run', steps' := run + [t], steps + [step];
    forall i: nat | i < |steps'|
      ensures StepsAt(run', steps', i)
    {
      if i < |steps| {
        assert StepsAt(run, steps, i);
        assert run'[i] == run[i] && steps'[i] == steps[i] && run'[i + 1] == run[i + 1];
      }
    }
  }

  /** A connected peer's room is the object the registry holds under that key, alive and not waiting to be reaped. */
  lemma ConnectedPeerHoldsRegisteredRoom<R, P>(run: seq<Server<R, P>>, steps: seq<Step<R, P>>, i: nat, p: P)
    requires IsRun(run, steps) && i < |run| && p in run[i].connections
    ensures
      var s := run[i];
      && p in s.peer && s.peer[p].sock != Closed && s.peer[p].room in s.room
      && var room := s.room[s.peer[p].room];
         && p in room.peers && !room.destroyed && !room.reaper
         && room.key in s.rooms && s.rooms[room.key] == s.peer[p].room
  {
    RunIsOk(run, steps, i);
    assert PeerOk(run[i], p);
    assert RoomOk(run[i], run[i].peer[p].room);
  }

  /** Among the rooms held, the reaper runs for exactly the empty ones; the gauge shows how many are held. */
  lemma ReaperRunsForEmptyRooms<R, P>(run: seq<Server<R, P>>, steps: seq<Step<R, P>>, i: nat)
    requires IsRun(run, steps) && i < |run|
    ensures forall k :: k in run[i].rooms ==>
              && run[i].rooms[k] in run[i].room
              && (run[i].room[run[i].rooms[k]].reaper <==> run[i].room[run[i].rooms[k]].peers == {})
    ensures forall r :: r in run[i].room ==> (run[i].room[r].destroyed <==> r !in run[i].rooms.Values)
    ensures run[i].reportedSize == |run[i].rooms|
  {
    RunIsOk(run, steps, i);
    var s := run[i];
    forall k | k in s.rooms
      ensures s.rooms[k] in s.room && (s.room[s.rooms[k]].reaper <==> s.room[s.rooms[k]].peers == {})
    {
      assert RoomOk(s, s.rooms[k]);
    }
    forall r | r in s.room
      ensures s.room[r].destroyed <==> r !in s.rooms.Values
    {
      assert RoomOk(s, r);
      if !s.room[r].destroyed {
        assert s.room[r].key in s.rooms.Keys;
      }
    }
  }

  /** What a room may become in one step: its document only grows, and while it has peers it lives. */
  ghost predicate LivesOn<P>(a: Room<P>, b: Room<P>) {
    && b.key == a.key && a.doc <= b.doc
    && (a.destroyed ==> b.destroyed) && (a.joined ==> b.joined)
    && (a.peers != {} ==> !b.destroyed || a.destroyed)
  }

  lemma StepKeepsDocument<R, P>(s: Server<R, P>, step: Step<R, P>, t: Server<R, P>, r: R)
    requires RoomsOk(s) && StepsTo(s, step, t) && r in s.room
    ensures r in t.room && LivesOn(s.room[r], t.room[r])
  {
    match step
    case Reap(x) => ReapKeepsDocument(s, x, t, r);
    case Accept(key, x, p) => AcceptKeepsDocument(s, key, x, p, t, r);
    case Frame(p, frame) => FrameKeepsDocument(s, p, frame, t, r);
    case CloseEvent(p) => CloseKeepsDocument(s, p, t, r);
    case _ => assert t.room == s.room;
  }

  lemma FrameKeepsDocument<R, P>(s: Server<R, P>, p: P, frame: Inbound, t: Server<R, P>, x: R)
    requires Wired(s) && p in s.peer && t == Handled(s, p, frame) && x in s.room
    ensures x in t.room && LivesOn(s.room[x], t.room[x])
  {
  }

  lemma CloseKeepsDocument<R, P>(s: Server<R, P>, p: P, t: Server<R, P>, x: R)
    requires Wired(s) && p in s.peer && t == Disconnected(s, p) && x in s.room
    ensures x in t.room && LivesOn(s.room[x], t.room[x])
  {
  }

  lemma AcceptKeepsDocument<R, P>(s: Server<R, P>, key: string, r: R, p: P, t: Server<R, P>, x: R)
    requires RoomsOk(s) && (key in s.rooms || r !in s.room) && t == Accepted(s, key, r, p) && x in s.room
    ensures x in t.room && LivesOn(s.room[x], t.room[x])
  {
  }

  lemma ReapKeepsDocument<R, P>(s: Server<R, P>, r: R, t: Server<R, P>, x: R)
    requires RoomsOk(s) && r in s.room && s.room[r].reaper && t == Reaped(s, r) && x in s.room
    ensures x in t.room && LivesOn(s.room[x], t.room[x])
  {
    assert RoomOk(s, r) && RoomOk(s, x);
  }

  lemma RunKeepsDocument<R, P>(run: seq<Server<R, P>>, steps: seq<Step<R, P>>, i: nat, r: R)
    requires IsRun(run, steps) && i < |steps| && r in run[i].room
    ensures r in run[i + 1].room && LivesOn(run[i].room[r], run[i + 1].room[r])
  {
    RunIsOk(run, steps, i);
    assert StepsAt(run, steps, i);
    StepKeepsDocument(run[i], steps[i], run[i + 1], r);
  }

  /** A document only grows, and a destroyed room stays so. */
  lemma {:induction false} DocumentOnlyGrows<R, P>(run: seq<Server<R, P>>, steps: seq<Step<R, P>>, i: nat, j: nat, r: R)
    requires IsRun(run, steps) && i <= j < |run| && r in run[i].room
    ensures r in run[j].room && run[j].room[r].key == run[i].room[r].key && run[i].room[r].doc <= run[j].room[r].doc
    ensures run[i].room[r].destroyed ==> run[j].room[r].destroyed
    decreases j
  {
    if i < j {
      DocumentOnlyGrows(run, steps, i, j - 1, r);
      RunKeepsDocument(run, steps, j - 1, r);
    }
  }

  /** Until it is reaped a room keeps its place and its document: nothing is lost, and no other object replaces it. */
  lemma RoomOutlivesItsPeers<R, P>(run: seq<Server<R, P>>, steps: seq<Step<R, P>>, i: nat, j: nat, r: R)
    requires IsRun(run, steps) && i <= j < |run| && r in run[i].room
    ensures r in run[j].room && run[j].room[r].key == run[i].room[r].key && run[i].room[r].doc <= run[j].room[r].doc
    ensures !run[j].room[r].destroyed ==>
              var key := run[i].room[r].key;
              key in run[i].rooms && run[i].rooms[key] == r && key in run[j].rooms && run[j].rooms[key] == r
  {
    DocumentOnlyGrows(run, steps, i, j, r);
    RunIsOk(run, steps, i);
    RunIsOk(run, steps, j);
    assert RoomOk(run[i], r) && RoomOk(run[j], r);
  }

  /** A peer that returns before the reaper fires joins the document it left, and is offered all of it. */
  lemma RejoinGetsSameDocument<R, P>(run: seq<Server<R, P>>, steps: seq<Step<R, P>>, i: nat, j: nat, key: string)
    requires IsRun(run, steps) && i <= j < |steps| && key in run[i].rooms
    requires steps[j].Accept? && steps[j].key == key
    requires run[i].rooms[key] in run[j].room && !run[j].room[run[i].rooms[key]].destroyed
    ensures
      var r, p, after := run[i].rooms[key], steps[j].newPeer, run[j + 1];
      && p in after.peer && after.peer[p].room == r && r in after.room && r in run[i].room
      && run[i].room[r].doc <= after.room[r].doc
      && |after.peer[p].sent| >= 1 && after.peer[p].sent[0] == Step1(after.room[r].doc)
  {
    RunIsOk(run, steps, i);
    RoomOutlivesItsPeers(run, steps, i, j, run[i].rooms[key]);
    assert StepsAt(run, steps, j);
  }

  /** Once answered, and while its socket is open, a peer has declared, been sent, or sent every update of its room. */
  lemma SyncedPeerMissesNothing<R, P>(run: seq<Server<R, P>>, steps: seq<Step<R, P>>, i: nat, p: P)
    requires IsRun(run, steps) && i < |run| && p in run[i].peer
    requires run[i].peer[p].sock == Open && run[i].peer[p].declared.Some?
    ensures
      var peer := run[i].peer[p];
      peer.room in run[i].room && run[i].room[peer.room].doc <= peer.declared.value + Told(peer.sent) + peer.received
  {
    RunIsOk(run, steps, i);
    assert PeerOk(run[i], p);
  }

  // ---- The heartbeat ---------------------------------------------------------------------------

  /** From one heartbeat on, nothing was heard from a peer. */
  ghost predicate SilentSince<R, P>(run: seq<Server<R, P>>, steps: seq<Step<R, P>>, k: nat, i: nat, p: P) {
    && k < i <= |steps| < |run| && steps[k].Heartbeat? && p in run[k].connections && p in run[k].peer
         && run[k].peer[p].alive
    && forall m :: k < m < i ==> steps[m] != Pong(p)
  }

  lemma FrameKeepsAlive<R, P>(s: Server<R, P>, p: P, frame: Inbound, t: Server<R, P>, q: P)
    requires Wired(s) && p in s.peer && t == Handled(s, p, frame) && q in t.peer
    ensures q in s.peer && t.peer[q].alive == s.peer[q].alive
  {
  }

  lemma OnlyHeartbeatSilences<R, P>(s: Server<R, P>, step: Step<R, P>, t: Server<R, P>, p: P)
    requires Wired(s) && Enabled(s, step) && t == Next(s, step) && p in t.peer && !t.peer[p].alive
    ensures p in s.peer && step != Pong(p)
    ensures s.peer[p].alive ==> step.Heartbeat? && p in s.connections
  {
    if step.Frame? {
      FrameKeepsAlive(s, step.p, step.frame, t, p);
    }
  }

  lemma {:induction false} NotAliveWasSilent<R, P>(run: seq<Server<R, P>>, steps: seq<Step<R, P>>, i: nat, p: P)
      returns (k: nat)
    requires IsRun(run, steps) && i < |run| && p in run[i].peer && !run[i].peer[p].alive
    ensures SilentSince(run, steps, k, i, p)
  {
    assert i > 0;
    assert StepsAt(run, steps, i - 1);
    OnlyHeartbeatSilences(run[i - 1], steps[i - 1], run[i - 1 + 1], p);
    if run[i - 1].peer[p].alive {
      k := i - 1;
    } else {
      k := NotAliveWasSilent(run, steps, i - 1, p);
    }
  }

  /** The heartbeat cuts only a peer that left a whole earlier heartbeat unanswered. */
  lemma CutOnlyAfterSilence<R, P>(run: seq<Server<R, P>>, steps: seq<Step<R, P>>, i: nat, p: P) returns (k: nat)
    requires IsRun(run, steps) && i < |steps| && steps[i].Heartbeat? && p in run[i].peer
    requires run[i].peer[p].sock == Open && p in run[i + 1].peer && run[i + 1].peer[p].sock != Open
    ensures SilentSince(run, steps, k, i, p)
  {
    assert StepsAt(run, steps, i);
    k := NotAliveWasSilent(run, steps, i, p);
  }
}

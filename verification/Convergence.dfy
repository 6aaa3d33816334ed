/**
 What the collaboration protocol is for: replicas that agree. The server of `Collab` is joined to
 clients that keep a replica, send what they hold and apply what they receive, over channels that
 deliver each frame once, in order, at any later time. Peers that are not such clients may share the
 rooms and send anything.
 */
module Convergence {
  import opened Prelude
  import opened Collab

  /**
   A client: its replica, how many frames have reached it, what is on its way up, and whether it has
   answered the server's step 1.
   */
  datatype Client = Client(replica: Updates, delivered: nat, uplink: seq<Inbound>, answered: bool)

  datatype System<R, P> = System(server: Server<R, P>, client: map<P, Client>)

  datatype Move<R, P> =
    | Connect(key: string, newRoom: R, newPeer: P, replica: Updates)
    | Hello(p: P)
    | Edit(p: P, update: Updates)
    | Chatter(p: P, frame: Inbound)
    | Receive(p: P)
    | Arrive(p: P)
    | Elsewhere(step: Step<R, P>)

  ghost predicate CanMove<R, P>(y: System<R, P>, m: Move<R, P>) {
    match m
    case Connect(key, r, p, _) => Enabled(y.server, Accept(key, r, p)) && p !in y.client
    case Hello(p) => p in y.client
    case Edit(p, _) => p in y.client
    case Chatter(p, frame) => p in y.client && !frame.AskSync? && !frame.SyncData?
    case Receive(p) => p in y.client && p in y.server.peer && y.client[p].delivered < |y.server.peer[p].sent|
    case Arrive(p) =>
      && p in y.client && y.client[p].uplink != []
      && Enabled(y.server, Step<R, P>.Frame(p, y.client[p].uplink[0]))
    case Elsewhere(step) =>
      && Enabled(y.server, step)
      && (step.Frame? ==> step.p !in y.client)
      && (step.Accept? ==> step.newPeer !in y.client)
  }

  function Queue<R, P>(y: System<R, P>, p: P, frame: Inbound): System<R, P>
    requires p in y.client
  {
    y.(client := y.client[p := y.client[p].(uplink := y.client[p].uplink + [frame])])
  }

  /** A client applies an update, and answers a step 1 with what the sender lacks. */
  function Applied(c: Client, m: Message): Client {
    var d := c.(delivered := c.delivered + 1);
    match m
    case Step1(sv) => d.(uplink := c.uplink + [SyncData(c.replica - sv)], answered := true)
    case Step2(u) => d.(replica := c.replica + u)
    case Update(u) => d.(replica := c.replica + u)
    case Aware(_) => d
  }

  /** The server step a move makes, if any. */
  function ServerStep<R, P>(y: System<R, P>, m: Move<R, P>): Option<Step<R, P>> {
    match m
    case Connect(key, r, p, _) => Some(Accept(key, r, p))
    case Arrive(p) =>
      if p in y.client && y.client[p].uplink != [] then Some(Step.Frame(p, y.client[p].uplink[0])) else None
    case Elsewhere(step) => Some(step)
    case _ => None
  }

  ghost function Moved<R, P>(y: System<R, P>, m: Move<R, P>): System<R, P>
    requires Wired(y.server) && CanMove(y, m)
  {
    match m
    case Connect(key, r, p, replica) =>
      System(Next(y.server, Accept(key, r, p)), y.client[p := Client(replica, 0, [], false)])
    case Hello(p) => Queue(y, p, AskSync(y.client[p].replica))
    case Edit(p, u) =>
      var c := y.client[p];
      y.(client := y.client[p := c.(replica := c.replica + u, uplink := c.uplink + [SyncData(u)])])
    case Chatter(p, frame) => Queue(y, p, frame)
    case Receive(p) => y.(client := y.client[p := Applied(y.client[p], y.server.peer[p].sent[y.client[p].delivered])])
    case Arrive(p) =>
      System(Next(y.server, Step.Frame(p, y.client[p].uplink[0])),
          y.client[p := y.client[p].(uplink := y.client[p].uplink[1..])])
    case Elsewhere(step) => y.(server := Next(y.server, step))
  }

  ghost predicate MovesTo<R, P>(y: System<R, P>, m: Move<R, P>, z: System<R, P>) {
    Wired(y.server) && CanMove(y, m) && z == Moved(y, m)
  }

  // ---- What the server tells is in the document --------------------------------------------------

  ghost predicate Within(m: Message, doc: Updates) {
    match m
    case Step1(sv) => sv <= doc
    case Step2(u) => u <= doc
    case Update(u) => u <= doc
    case Aware(_) => true
  }

  ghost predicate AllWithin(sent: seq<Message>, doc: Updates) {
    forall i :: 0 <= i < |sent| ==> Within(sent[i], doc)
  }

  lemma {:induction false} ReplayWithin<P>(l: seq<(P, Bytes)>, p: P, doc: Updates)
    ensures AllWithin(Replay(l, p), doc) && Told(Replay(l, p)) == {}
  {
    if l != [] {
      ReplayWithin(l[..|l| - 1], p, doc);
      var last := if l[|l| - 1].0 == p then [] else [Aware(l[|l| - 1].1)];
      ToldConcat(Replay(l[..|l| - 1], p), last);
      assert last != [] ==> last[..0] == [];
    }
  }

  /** How a peer's record may change when somebody else acts: more frames, never fewer. */
  ghost predicate Follows<R>(a: Peer<R>, b: Peer<R>) {
    b.room == a.room && a.sent <= b.sent && b.declared == a.declared && b.received == a.received
  }

  lemma ReshapingStep<R, P>(s: Server<R, P>, step: Step<R, P>, t: Server<R, P>, q: P)
    requires Wired(s) && Enabled(s, step) && Reshapes(step) && t == Next(s, step) && q in s.peer
    ensures q in t.peer && Follows(s.peer[q], t.peer[q]) && t.peer[q].sent == s.peer[q].sent
  {
  }

  /** Only frames make the server send to peers it already has. */
  lemma QuietStep<R, P>(s: Server<R, P>, step: Step<R, P>, t: Server<R, P>, q: P)
    requires Wired(s) && Enabled(s, step) && !step.Frame? && t == Next(s, step) && q in s.peer
    ensures q in t.peer && Follows(s.peer[q], t.peer[q]) && t.peer[q].sent == s.peer[q].sent
  {
    if Reshapes(step) {
      ReshapingStep(s, step, t, q);
    }
  }

  lemma FrameFollows<R, P>(s: Server<R, P>, p: P, frame: Inbound, t: Server<R, P>, q: P)
    requires Wired(s) && p in s.peer && t == Handled(s, p, frame) && q in s.peer && q != p
    ensures q in t.peer && Follows(s.peer[q], t.peer[q])
  {
  }

  /** A peer whose frames are all within its document. */
  ghost predicate HonestTo<R, P>(s: Server<R, P>, p: P) {
    p in s.peer && s.peer[p].room in s.room && AllWithin(s.peer[p].sent, s.room[s.peer[p].room].doc)
  }

  lemma DataIsHonest<R, P>(s: Server<R, P>, p: P, u: Updates, t: Server<R, P>, q: P)
    requires RoomsOk(s) && p in s.peer && t == Handled(s, p, SyncData(u)) && HonestTo(s, q)
    ensures HonestTo(t, q)
  {
    assert RoomOk(s, s.peer[p].room);
  }

  lemma PresenceIsHonest<R, P>(s: Server<R, P>, p: P, payload: Bytes, t: Server<R, P>, q: P)
    requires RoomsOk(s) && p in s.peer && t == Handled(s, p, Presence(payload)) && HonestTo(s, q)
    ensures HonestTo(t, q)
  {
  }

  lemma ReplyIsHonest<R, P>(s: Server<R, P>, p: P, frame: Inbound, t: Server<R, P>, q: P)
    requires RoomsOk(s) && p in s.peer && t == Handled(s, p, frame) && !frame.SyncData? && !frame.Presence?
             && HonestTo(s, q)
    ensures HonestTo(t, q)
  {
    assert t.room == s.room;
    if q == p {
      ReplyWithin(s, p, frame, t);
    }
  }

  /** An answer to the sender adds frames within the document. */
  lemma ReplyWithin<R, P>(s: Server<R, P>, p: P, frame: Inbound, t: Server<R, P>)
    requires Wired(s) && HonestTo(s, p) && t == Handled(s, p, frame) && !frame.SyncData? && !frame.Presence?
    ensures HonestTo(t, p)
  {
    var room := s.room[s.peer[p].room];
    ReplayWithin(room.lastAwareness, p, room.doc);
  }

  lemma FrameIsHonest<R, P>(s: Server<R, P>, p: P, frame: Inbound, t: Server<R, P>, q: P)
    requires RoomsOk(s) && p in s.peer && t == Handled(s, p, frame) && HonestTo(s, q)
    ensures HonestTo(t, q)
  {
    match frame
    case SyncData(u) => DataIsHonest(s, p, u, t, q);
    case Presence(payload) => PresenceIsHonest(s, p, payload, t, q);
    case _ => ReplyIsHonest(s, p, frame, t, q);
  }

  lemma NewPeerIsHonest<R, P>(s: Server<R, P>, key: string, r: R, p: P, t: Server<R, P>)
    requires Wired(s) && t == Accepted(s, key, r, p)
    ensures HonestTo(t, p)
  {
    var room := JoinedRoom(s, key, p);
    ReplayWithin(room.lastAwareness, p, room.doc);
  }

  lemma QuietStepIsHonest<R, P>(s: Server<R, P>, step: Step<R, P>, t: Server<R, P>, q: P)
    requires RoomsOk(s) && StepsTo(s, step, t) && !step.Frame? && HonestTo(s, q)
    ensures HonestTo(t, q)
  {
    QuietStep(s, step, t, q);
    StepKeepsDocument(s, step, t, s.peer[q].room);
  }

  lemma StepIsHonest<R, P>(s: Server<R, P>, step: Step<R, P>, t: Server<R, P>, q: P)
    requires RoomsOk(s) && Enabled(s, step) && t == Next(s, step)
    requires HonestTo(s, q) || (step.Accept? && step.newPeer == q)
    ensures HonestTo(t, q)
  {
    match step
    case Frame(p, frame) => FrameIsHonest(s, p, frame, t, q);
    case Accept(key, r, p) =>
      if p == q {
        NewPeerIsHonest(s, key, r, p, t);
      } else {
        QuietStepIsHonest(s, step, t, q);
      }
    case _ => QuietStepIsHonest(s, step, t, q);
  }

  // ---- What a client knows ------------------------------------------------------------------------

  ghost predicate Sends(frame: Inbound, replica: Updates) {
    (frame.AskSync? ==> frame.stateVector <= replica) && (frame.SyncData? ==> frame.update <= replica)
  }

  function Carried(frame: Inbound): Updates {
    if frame.SyncData? then frame.update else {}
  }

  /** The updates on their way up. */
  function Queued(uplink: seq<Inbound>): Updates {
    if uplink == [] then {} else Carried(uplink[0]) + Queued(uplink[1..])
  }

  lemma {:induction false} QueuedThen(uplink: seq<Inbound>, frame: Inbound)
    ensures Queued(uplink + [frame]) == Queued(uplink) + Carried(frame)
  {
    if uplink == [] {
      assert uplink + [frame] == [frame] && [frame][1..] == [];
    } else {
      QueuedThen(uplink[1..], frame);
      assert (uplink + [frame])[1..] == uplink[1..] + [frame];
    }
  }

  /**
   The replica holds what the client has declared, sent and received; once it has answered, all of it
   is in the document or on its way.
   */
  ghost predicate ClientOk<R>(peer: Peer<R>, c: Client, doc: Updates) {
    && c.delivered <= |peer.sent| && AllWithin(peer.sent, doc)
    && Told(peer.sent[..c.delivered]) <= c.replica
    && (peer.declared.Some? ==> peer.declared.value <= c.replica) && peer.received <= c.replica
    && (forall i :: 0 <= i < |c.uplink| ==> Sends(c.uplink[i], c.replica))
    && (c.answered ==> c.replica <= doc + Queued(c.uplink))
  }

  ghost predicate Tracks<R, P>(y: System<R, P>, p: P) {
    && p in y.client && p in y.server.peer && y.server.peer[p].room in y.server.room
    && ClientOk(y.server.peer[p], y.client[p], y.server.room[y.server.peer[p].room].doc)
  }

  ghost predicate SystemOk<R, P>(y: System<R, P>) {
    RoomsOk(y.server) && SyncOk(y.server) && forall p :: p in y.client ==> Tracks(y, p)
  }

  lemma OthersStayOk<R>(a: Peer<R>, b: Peer<R>, c: Client, doc: Updates, doc': Updates)
    requires ClientOk(a, c, doc) && Follows(a, b) && AllWithin(b.sent, doc') && doc <= doc'
    ensures ClientOk(b, c, doc')
  {
    assert b.sent[..c.delivered] == a.sent[..c.delivered];
  }

  lemma QueueingStaysOk<R>(peer: Peer<R>, c: Client, doc: Updates, u: Updates, frame: Inbound)
    requires ClientOk(peer, c, doc) && Sends(frame, c.replica + u) && u <= Carried(frame)
    ensures ClientOk(peer, c.(replica := c.replica + u, uplink := c.uplink + [frame]), doc)
  {
    QueuedThen(c.uplink, frame);
  }

  lemma ReceivingStaysOk<R>(peer: Peer<R>, c: Client, doc: Updates)
    requires ClientOk(peer, c, doc) && c.delivered < |peer.sent|
    ensures ClientOk(peer, Applied(c, peer.sent[c.delivered]), doc)
  {
    var m, d := peer.sent[c.delivered], Applied(c, peer.sent[c.delivered]);
    assert Within(m, doc);
    assert peer.sent[..c.delivered + 1][..c.delivered] == peer.sent[..c.delivered];
    if m.Step1? {
      QueuedThen(c.uplink, SyncData(c.replica - m.stateVector));
    }
  }

  lemma ArrivedStaysOk<R>(a: Peer<R>, b: Peer<R>, c: Client, doc: Updates, doc': Updates)
    requires ClientOk(a, c, doc) && c.uplink != []
    requires Answers(a, b, c.uplink[0]) && doc' == doc + Carried(c.uplink[0]) && AllWithin(b.sent, doc')
    ensures ClientOk(b, c.(uplink := c.uplink[1..]), doc')
  {
    assert Sends(c.uplink[0], c.replica);
    assert b.sent[..c.delivered] == a.sent[..c.delivered];
    assert forall i :: 0 <= i < |c.uplink[1..]| ==> c.uplink[1..][i] == c.uplink[i + 1];
  }

  /** What a frame does to its own sender's record. */
  ghost predicate Answers<R>(a: Peer<R>, b: Peer<R>, frame: Inbound) {
    && b.room == a.room && a.sent <= b.sent
    && b.declared == (if frame.AskSync? then Some(frame.stateVector) else a.declared)
    && b.received == a.received + Carried(frame)
  }

  lemma FrameAnswers<R, P>(s: Server<R, P>, p: P, frame: Inbound, t: Server<R, P>)
    requires Wired(s) && p in s.peer && t == Handled(s, p, frame)
    ensures p in t.peer && Answers(s.peer[p], t.peer[p], frame)
  {
  }

  lemma FrameExtendsDocument<R, P>(s: Server<R, P>, p: P, frame: Inbound, t: Server<R, P>)
    requires Wired(s) && p in s.peer && t == Handled(s, p, frame)
    ensures s.peer[p].room in t.room && t.room[s.peer[p].room].doc == s.room[s.peer[p].room].doc + Carried(frame)
  {
  }

  lemma ArrivingTracks<R, P>(y: System<R, P>, p: P, z: System<R, P>)
    requires SystemOk(y) && CanMove(y, Move<R, P>.Arrive(p)) && z == Moved(y, Move.Arrive(p))
    ensures Tracks(z, p)
  {
    var s, c, frame := y.server, y.client[p], y.client[p].uplink[0];
    assert Tracks(y, p);
    FrameIsHonest(s, p, frame, z.server, p);
    FrameAnswers(s, p, frame, z.server);
    FrameExtendsDocument(s, p, frame, z.server);
    ArrivedStaysOk(s.peer[p], z.server.peer[p], c, s.room[s.peer[p].room].doc, z.server.room[s.peer[p].room].doc);
  }

  /** A client nobody moved keeps track through any step of the server. */
  lemma BystanderTracks<R, P>(y: System<R, P>, step: Step<R, P>, t: Server<R, P>, q: P)
    requires RoomsOk(y.server) && Tracks(y, q) && Enabled(y.server, step) && t == Next(y.server, step)
    requires !(step.Frame? && step.p == q)
    ensures q in t.peer && t.peer[q].room in t.room && ClientOk(t.peer[q], y.client[q], t.room[t.peer[q].room].doc)
  {
    var s := y.server;
    if step.Frame? {
      FrameFollows(s, step.p, step.frame, t, q);
    } else {
      QuietStep(s, step, t, q);
    }
    StepIsHonest(s, step, t, q);
    StepKeepsDocument(s, step, t, s.peer[q].room);
    OthersStayOk(s.peer[q], t.peer[q], y.client[q], s.room[s.peer[q].room].doc, t.room[s.peer[q].room].doc);
  }

  lemma NewcomerTracks<R, P>(y: System<R, P>, m: Move<R, P>, z: System<R, P>)
    requires SystemOk(y) && CanMove(y, m) && m.Connect? && z == Moved(y, m)
    ensures Tracks(z, m.newPeer)
  {
    NewPeerIsHonest(y.server, m.key, m.newRoom, m.newPeer, z.server);
    assert z.server.peer[m.newPeer].sent[..0] == [];
  }

  /** The moves that involve one client only. */
  lemma LocalMoveTracks<R, P>(y: System<R, P>, m: Move<R, P>, z: System<R, P>)
    requires SystemOk(y) && CanMove(y, m) && (m.Hello? || m.Edit? || m.Chatter? || m.Receive?) && z == Moved(y, m)
    ensures Tracks(z, m.p)
  {
    assert Tracks(y, m.p);
    var peer, c := y.server.peer[m.p], y.client[m.p];
    var doc := y.server.room[peer.room].doc;
    match m
    case Hello(_) =>
      assert c.replica + {} == c.replica;
      QueueingStaysOk(peer, c, doc, {}, AskSync(c.replica));
    case Edit(_, u) => QueueingStaysOk(peer, c, doc, u, SyncData(u));
    case Chatter(_, frame) =>
      assert c.replica + {} == c.replica;
      QueueingStaysOk(peer, c, doc, {}, frame);
    case Receive(_) => ReceivingStaysOk(peer, c, doc);
  }

  lemma OneClientTracks<R, P>(y: System<R, P>, m: Move<R, P>, step: Step<R, P>, z: System<R, P>, q: P)
    requires SystemOk(y) && CanMove(y, m) && ServerStep(y, m) == Some(step) && z == Moved(y, m) && q in z.client
    ensures Tracks(z, q)
  {
    if m.Connect? && q == m.newPeer {
      NewcomerTracks(y, m, z);
    } else if m.Arrive? && q == m.p {
      ArrivingTracks(y, m.p, z);
    } else {
      assert Tracks(y, q);
      BystanderTracks(y, step, z.server, q);
    }
  }

  lemma ServerMoveKeepsSystem<R, P>(y: System<R, P>, m: Move<R, P>, step: Step<R, P>, z: System<R, P>)
    requires SystemOk(y) && CanMove(y, m) && ServerStep(y, m) == Some(step) && z == Moved(y, m)
    ensures SystemOk(z)
  {
    StepIsOk(y.server, step, z.server);
    forall q | q in z.client
      ensures Tracks(z, q)
    {
      OneClientTracks(y, m, step, z, q);
    }
  }

  lemma LocalMoveKeepsSystem<R, P>(y: System<R, P>, m: Move<R, P>, z: System<R, P>)
    requires SystemOk(y) && CanMove(y, m) && ServerStep(y, m).None? && z == Moved(y, m)
    ensures SystemOk(z)
  {
    forall q | q in z.client
      ensures Tracks(z, q)
    {
      assert Tracks(y, q);
      if q == m.p {
        LocalMoveTracks(y, m, z);
      }
    }
  }

  lemma MoveKeepsSystem<R, P>(y: System<R, P>, m: Move<R, P>, z: System<R, P>)
    requires SystemOk(y) && MovesTo(y, m, z)
    ensures SystemOk(z)
  {
    var step := ServerStep(y, m);
    if step.Some? {
      ServerMoveKeepsSystem(y, m, step.value, z);
    } else {
      LocalMoveKeepsSystem(y, m, z);
    }
  }

  // ---- Runs of the whole system --------------------------------------------------------------------

  ghost predicate IsSystemRun<R, P>(run: seq<System<R, P>>, moves: seq<Move<R, P>>) {
    && |run| == |moves| + 1 && run[0] == System(Idle(), map[])
    && forall i: nat :: i < |moves| ==> MovesAt(run, moves, i)
  }

  ghost predicate MovesAt<R, P>(run: seq<System<R, P>>, moves: seq<Move<R, P>>, i: nat) {
    i < |moves| && i + 1 < |run| && MovesTo(run[i], moves[i], run[i + 1])
  }

  lemma {:induction false} SystemRunIsOk<R, P>(run: seq<System<R, P>>, moves: seq<Move<R, P>>, i: nat)
    requires IsSystemRun(run, moves) && i < |run|
    ensures SystemOk(run[i])
  {
    if i == 0 {
      StartIsOk<R, P>();
    } else {
      SystemRunIsOk(run, moves, i - 1);
      assert MovesAt(run, moves, i - 1);
      MoveKeepsSystem(run[i - 1], moves[i - 1], run[i - 1 + 1]);
    }
  }

  lemma StartIsOk<R, P>()
    ensures SystemOk(System(Idle<R, P>(), map[]))
  {
  }

  /** Connected, answered both ways, and nothing left in either channel. */
  ghost predicate Quiet<R, P>(y: System<R, P>, p: P) {
    && p in y.client && p in y.server.peer
    && y.server.peer[p].sock == Open && y.server.peer[p].declared.Some? && y.client[p].answered
    && y.client[p].delivered == |y.server.peer[p].sent| && y.client[p].uplink == []
  }

  /** A quiet client's replica is the room's document, whoever else is in the room. */
  lemma QuietReplicaIsTheDocument<R, P>(run: seq<System<R, P>>, moves: seq<Move<R, P>>, i: nat, p: P)
    requires IsSystemRun(run, moves) && i < |run| && Quiet(run[i], p)
    ensures
      var s := run[i].server;
      s.peer[p].room in s.room && run[i].client[p].replica == s.room[s.peer[p].room].doc
  {
    SystemRunIsOk(run, moves, i);
    var s, c := run[i].server, run[i].client[p];
    assert Tracks(run[i], p) && PeerOk(s, p);
    assert s.peer[p].sent[..c.delivered] == s.peer[p].sent;
  }

  /** Quiet clients of one session hold the same document. */
  lemma QuietReplicasAgree<R, P>(run: seq<System<R, P>>, moves: seq<Move<R, P>>, i: nat, p: P, q: P)
    requires IsSystemRun(run, moves) && i < |run| && Quiet(run[i], p) && Quiet(run[i], q)
    requires var s := run[i].server;
             && s.peer[p].room in s.room && s.peer[q].room in s.room
             && s.room[s.peer[p].room].key == s.room[s.peer[q].room].key
    ensures run[i].client[p].replica == run[i].client[q].replica
  {
    SystemRunIsOk(run, moves, i);
    var s := run[i].server;
    assert PeerOk(s, p) && PeerOk(s, q) && RoomOk(s, s.peer[p].room) && RoomOk(s, s.peer[q].room);
    QuietReplicaIsTheDocument(run, moves, i, p);
    QuietReplicaIsTheDocument(run, moves, i, q);
  }
}

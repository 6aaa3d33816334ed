/**
 Agreement can always be reached: from every state of every run, an open client gets to the quiet
 state of `Convergence` by its own moves, whatever the others did before.
 */
module Settling {
  import opened Prelude
  import opened Collab
  import opened Convergence

  /** Frames for which the server closes the socket. */
  predicate Fatal(frame: Inbound) {
    frame.Undecodable? || frame.NotBinary?
  }

  /** Frames the server answers to their sender. */
  predicate Asks(frame: Inbound) {
    frame.AskSync? || frame.QueryPresence?
  }

  function Asking(uplink: seq<Inbound>): nat {
    if uplink == [] then 0 else (if Asks(uplink[0]) then 1 else 0) + Asking(uplink[1..])
  }

  lemma {:induction false} AskingThen(uplink: seq<Inbound>, frame: Inbound)
    ensures Asking(uplink + [frame]) == Asking(uplink) + if Asks(frame) then 1 else 0
  {
    if uplink == [] {
      assert uplink + [frame] == [frame] && [frame][1..] == [];
    } else {
      AskingThen(uplink[1..], frame);
      assert (uplink + [frame])[1..] == uplink[1..] + [frame];
    }
  }

  ghost predicate Harmless(uplink: seq<Inbound>) {
    forall i :: 0 <= i < |uplink| ==> !Fatal(uplink[i])
  }

  /** An open client with nothing fatal on its way up. */
  ghost predicate Alive<R, P>(y: System<R, P>, p: P) {
    && p in y.client && p in y.server.peer && y.server.peer[p].sock == Open
    && Harmless(y.client[p].uplink)
  }

  ghost predicate HasDeclared<R, P>(y: System<R, P>, p: P) {
    && p in y.client && p in y.server.peer
    && (y.server.peer[p].declared.Some? || exists i :: 0 <= i < |y.client[p].uplink| && y.client[p].uplink[i].AskSync?)
  }

  // ---- A client that has received anything has answered step 1 ---------------------------------------

  /** The first frame to a peer is step 1, and a client that has received it has answered it. */
  ghost predicate Greeted<R, P>(y: System<R, P>, p: P) {
    && p in y.client && p in y.server.peer
    && y.server.peer[p].sent != [] && y.server.peer[p].sent[0].Step1?
    && (y.client[p].delivered > 0 ==> y.client[p].answered)
  }

  ghost predicate AllGreeted<R, P>(y: System<R, P>) {
    forall p :: p in y.client ==> Greeted(y, p)
  }

  lemma SentExtends<R, P>(s: Server<R, P>, step: Step<R, P>, t: Server<R, P>, p: P)
    requires StepsTo(s, step, t) && p in s.peer
    ensures p in t.peer && s.peer[p].sent <= t.peer[p].sent
  {
    if step.Frame? {
      if step.p == p {
        FrameAnswers(s, p, step.frame, t);
      } else {
        FrameFollows(s, step.p, step.frame, t, p);
      }
    } else {
      QuietStep(s, step, t, p);
    }
  }

  lemma ServerMoveIsStep<R, P>(y: System<R, P>, m: Move<R, P>, z: System<R, P>)
    requires MovesTo(y, m, z) && ServerStep(y, m).Some?
    ensures StepsTo(y.server, ServerStep(y, m).value, z.server)
  {
  }

  lemma StaysGreeted<R, P>(y: System<R, P>, m: Move<R, P>, z: System<R, P>, p: P)
    requires MovesTo(y, m, z) && Greeted(y, p)
    ensures Greeted(z, p)
  {
    var step := ServerStep(y, m);
    if step.Some? {
      ServerMoveIsStep(y, m, z);
      SentExtends(y.server, step.value, z.server, p);
    }
  }

  lemma NewcomerIsGreeted<R, P>(y: System<R, P>, m: Move<R, P>, z: System<R, P>)
    requires MovesTo(y, m, z) && m.Connect?
    ensures Greeted(z, m.newPeer)
  {
  }

  lemma MoveKeepsGreeted<R, P>(y: System<R, P>, m: Move<R, P>, z: System<R, P>)
    requires MovesTo(y, m, z) && AllGreeted(y)
    ensures AllGreeted(z)
  {
    forall p | p in z.client
      ensures Greeted(z, p)
    {
      if m.Connect? && p == m.newPeer {
        NewcomerIsGreeted(y, m, z);
      } else {
        StaysGreeted(y, m, z, p);
      }
    }
  }

  lemma {:induction false} RunIsGreeted<R, P>(run: seq<System<R, P>>, moves: seq<Move<R, P>>, i: nat)
    requires IsSystemRun(run, moves) && i < |run|
    ensures AllGreeted(run[i])
  {
    if i > 0 {
      RunIsGreeted(run, moves, i - 1);
      assert MovesAt(run, moves, i - 1);
      MoveKeepsGreeted(run[i - 1], moves[i - 1], run[i - 1 + 1]);
    }
  }

  // ---- One move at a time -----------------------------------------------------------------------------

  lemma ExtendSystemRun<R, P>(run: seq<System<R, P>>, moves: seq<Move<R, P>>, m: Move<R, P>, z: System<R, P>)
    requires IsSystemRun(run, moves) && MovesTo(run[|moves|], m, z)
    ensures IsSystemRun(run + [z], moves + [m])
  {
    var run', moves' := run + [z], moves + [m];
    forall i: nat | i < |moves'|
      ensures MovesAt(run', moves', i)
    {
      if i < |moves| {
        assert MovesAt(run, moves, i);
        assert run'[i] == run[i] && moves'[i] == moves[i] && run'[i + 1] == run[i + 1];
      }
    }
  }

  /** What a frame that is not fatal does to its sender: the socket stays, and only a question is answered. */
  lemma FrameOnSender<R, P>(s: Server<R, P>, p: P, frame: Inbound, t: Server<R, P>)
    requires Wired(s) && p in s.peer && t == Handled(s, p, frame) && !Fatal(frame)
    ensures p in t.peer && t.peer[p].sock == s.peer[p].sock && s.peer[p].sent <= t.peer[p].sent
    ensures !Asks(frame) ==> t.peer[p].sent == s.peer[p].sent
    ensures t.peer[p].declared == if frame.AskSync? then Some(frame.stateVector) else s.peer[p].declared
  {
  }

  lemma HelloIsFine<R, P>(y: System<R, P>, p: P) returns (z: System<R, P>)
    requires Wired(y.server) && Alive(y, p)
    ensures MovesTo(y, Move<R, P>.Hello(p), z) && Alive(z, p) && HasDeclared(z, p)
  {
    z := Moved(y, Move<R, P>.Hello(p));
    assert z.client[p].uplink[|y.client[p].uplink|].AskSync?;
  }

  /** What is left to do: questions to be answered, frames to receive, frames to send. */
  ghost predicate Closer<R, P>(z: System<R, P>, y: System<R, P>, p: P) {
    && p in z.client && p in z.server.peer && p in y.client && p in y.server.peer
    && var (a, b) := (Asking(z.client[p].uplink), Asking(y.client[p].uplink));
       var (c, d) := (Pending(z, p), Pending(y, p));
       a < b || (a == b && (c < d || (c == d && |z.client[p].uplink| < |y.client[p].uplink|)))
  }

  ghost function Pending<R, P>(y: System<R, P>, p: P): int
    requires p in y.client && p in y.server.peer
  {
    |y.server.peer[p].sent| - y.client[p].delivered
  }

  lemma ArriveIsFine<R, P>(y: System<R, P>, p: P) returns (z: System<R, P>)
    requires Wired(y.server) && Alive(y, p) && HasDeclared(y, p) && y.client[p].uplink != []
    ensures MovesTo(y, Move<R, P>.Arrive(p), z) && Alive(z, p) && HasDeclared(z, p) && Closer(z, y, p)
  {
    z := Moved(y, Move<R, P>.Arrive(p));
    var uplink := y.client[p].uplink;
    FrameOnSender(y.server, p, uplink[0], z.server);
    assert forall i :: 0 <= i < |uplink[1..]| ==> uplink[1..][i] == uplink[i + 1];
    if y.server.peer[p].declared.None? && !uplink[0].AskSync? {
      var i :| 0 <= i < |uplink| && uplink[i].AskSync?;
      assert uplink[1..][i - 1].AskSync?;
    }
  }

  lemma ReceiveIsFine<R, P>(y: System<R, P>, p: P) returns (z: System<R, P>)
    requires Wired(y.server) && Alive(y, p) && HasDeclared(y, p) && Pending(y, p) > 0 && y.client[p].delivered >= 0
    ensures MovesTo(y, Move<R, P>.Receive(p), z) && Alive(z, p) && HasDeclared(z, p) && Closer(z, y, p)
  {
    z := Moved(y, Move<R, P>.Receive(p));
    var c, m := y.client[p], y.server.peer[p].sent[y.client[p].delivered];
    if m.Step1? {
      AskingThen(c.uplink, SyncData(c.replica - m.stateVector));
      if y.server.peer[p].declared.None? {
        var i :| 0 <= i < |c.uplink| && c.uplink[i].AskSync?;
        assert z.client[p].uplink[i].AskSync?;
      }
    }
  }

  // ---- The whole way ----------------------------------------------------------------------------------

  predicate IsOwnMove<R, P(==)>(m: Move<R, P>, p: P) {
    (m.Hello? || m.Receive? || m.Arrive?) && m.p == p
  }

  /** A run continued by moves of one client only. */
  ghost predicate ContinuedBy<R, P>(
      run: seq<System<R, P>>, moves: seq<Move<R, P>>, run': seq<System<R, P>>, moves': seq<Move<R, P>>, p: P)
  {
    && IsSystemRun(run', moves') && run <= run' && moves <= moves'
    && forall i :: |moves| <= i < |moves'| ==> IsOwnMove(moves'[i], p)
  }

  lemma OneMoreMove<R, P>(run: seq<System<R, P>>, moves: seq<Move<R, P>>, m: Move<R, P>, z: System<R, P>, p: P)
    requires IsSystemRun(run, moves) && MovesTo(run[|moves|], m, z) && IsOwnMove(m, p)
    ensures ContinuedBy(run, moves, run + [z], moves + [m], p) && (run + [z])[|moves + [m]|] == z
  {
    ExtendSystemRun(run, moves, m, z);
  }

  lemma ContinuedTwice<R, P>(
      r0: seq<System<R, P>>, m0: seq<Move<R, P>>, r1: seq<System<R, P>>, m1: seq<Move<R, P>>,
      r2: seq<System<R, P>>, m2: seq<Move<R, P>>, p: P)
    requires ContinuedBy(r0, m0, r1, m1, p) && ContinuedBy(r1, m1, r2, m2, p)
    ensures ContinuedBy(r0, m0, r2, m2, p)
  {
    assert forall i :: |m0| <= i < |m1| ==> m2[i] == m1[i];
  }

  /** With both channels empty and its state vector declared, a client is quiet. */
  lemma EmptyIsQuiet<R, P>(y: System<R, P>, p: P)
    requires Alive(y, p) && HasDeclared(y, p) && Greeted(y, p) && y.client[p].uplink == [] && Pending(y, p) == 0
    ensures Quiet(y, p)
  {
  }

  lemma {:induction false} Settles<R, P>(run: seq<System<R, P>>, moves: seq<Move<R, P>>, p: P)
      returns (run': seq<System<R, P>>, moves': seq<Move<R, P>>)
    requires IsSystemRun(run, moves) && Alive(run[|moves|], p) && HasDeclared(run[|moves|], p)
    ensures ContinuedBy(run, moves, run', moves', p) && Quiet(run'[|moves'|], p)
    decreases Asking(run[|moves|].client[p].uplink), Pending(run[|moves|], p), |run[|moves|].client[p].uplink|
  {
    var y := run[|moves|];
    SystemRunIsOk(run, moves, |moves|);
    assert Tracks(y, p);
    if y.client[p].uplink != [] {
      var z := ArriveIsFine(y, p);
      OneMoreMove(run, moves, Move<R, P>.Arrive(p), z, p);
      run', moves' := Settles(run + [z], moves + [Move<R, P>.Arrive(p)], p);
      ContinuedTwice(run, moves, run + [z], moves + [Move<R, P>.Arrive(p)], run', moves', p);
    } else if Pending(y, p) > 0 {
      var z := ReceiveIsFine(y, p);
      OneMoreMove(run, moves, Move<R, P>.Receive(p), z, p);
      run', moves' := Settles(run + [z], moves + [Move<R, P>.Receive(p)], p);
      ContinuedTwice(run, moves, run + [z], moves + [Move<R, P>.Receive(p)], run', moves', p);
    } else {
      RunIsGreeted(run, moves, |moves|);
      EmptyIsQuiet(y, p);
      run', moves' := run, moves;
    }
  }

  lemma MoveKeepsReplica<R, P>(y: System<R, P>, m: Move<R, P>, z: System<R, P>, p: P)
    requires MovesTo(y, m, z) && p in y.client
    ensures p in z.client && y.client[p].replica <= z.client[p].replica
  {
  }

  /** A client never loses what it holds. */
  lemma {:induction false} ReplicaOnlyGrows<R, P>(run: seq<System<R, P>>, moves: seq<Move<R, P>>, i: nat, j: nat, p: P)
    requires IsSystemRun(run, moves) && i <= j < |run| && p in run[i].client
    ensures p in run[j].client && run[i].client[p].replica <= run[j].client[p].replica
    decreases j
  {
    if i < j {
      ReplicaOnlyGrows(run, moves, i, j - 1, p);
      assert MovesAt(run, moves, j - 1);
      MoveKeepsReplica(run[j - 1], moves[j - 1], run[j - 1 + 1], p);
    }
  }

  /**
   From every state of every run, a client whose socket is open, with nothing fatal on its way up,
   becomes quiet by saying hello and letting its two channels empty. It then holds the document, which
   has everything the client held before.
   */
  lemma ClientCanAlwaysSettle<R, P>(run: seq<System<R, P>>, moves: seq<Move<R, P>>, p: P)
      returns (run': seq<System<R, P>>, moves': seq<Move<R, P>>)
    requires IsSystemRun(run, moves) && Alive(run[|moves|], p)
    ensures ContinuedBy(run, moves, run', moves', p) && Quiet(run'[|moves'|], p)
    ensures
      var s := run'[|moves'|].server;
      && s.peer[p].room in s.room && run'[|moves'|].client[p].replica == s.room[s.peer[p].room].doc
      && run[|moves|].client[p].replica <= s.room[s.peer[p].room].doc
  {
    SystemRunIsOk(run, moves, |moves|);
    var z := HelloIsFine(run[|moves|], p);
    OneMoreMove(run, moves, Move<R, P>.Hello(p), z, p);
    run', moves' := Settles(run + [z], moves + [Move<R, P>.Hello(p)], p);
    ContinuedTwice(run, moves, run + [z], moves + [Move<R, P>.Hello(p)], run', moves', p);
    QuietReplicaIsTheDocument(run', moves', |moves'|, p);
    ReplicaOnlyGrows(run', moves', |moves|, |moves'|, p);
  }
}

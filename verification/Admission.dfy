/**
 The upgrade handler (apps/collab/src/server.ts:416-435): the handshake of `Tickets` is the only way
 into the rooms of `Collab`. A ticket opens at most one connection, into the document of the session
 it names, whatever path segment it came with.
 */
module Admission {
  import opened Collab
  import Tickets
  import Convergence

  type Env = Tickets.Env

  /** The handshakes and closes so far, the server, and which handshake admitted each peer. */
  datatype Service<R, P> = Service(history: seq<Tickets.Event>, server: Server<R, P>, admittedBy: map<P, nat>)

  datatype Happening<R, P> =
    | Upgrade(req: Tickets.Request, newRoom: R, newPeer: P)
    | AbortedUpgrade(req: Tickets.Request)
    | Shutdown
    | Inside(step: Step<R, P>)

  function Outcome<R, P>(env: Env, v: Service<R, P>, req: Tickets.Request): Tickets.Outcome {
    Tickets.Authorised(env, Tickets.StateAfter(env, v.history), req).1
  }

  /**
   A handshake may bring any request, and the upgrade may still be aborted after the ticket is claimed;
   the room and the peer it may create are new objects.
   */
  ghost predicate CanHappen<R, P>(env: Env, v: Service<R, P>, h: Happening<R, P>) {
    match h
    case Upgrade(_, r, p) => r !in v.server.room && p !in v.server.peer
    case AbortedUpgrade(_) => true
    case Shutdown => true
    case Inside(step) => Enabled(v.server, step) && !step.Accept? && !step.Drain?
  }

  ghost function After<R, P>(env: Env, v: Service<R, P>, h: Happening<R, P>): Service<R, P>
    requires Wired(v.server) && CanHappen(env, v, h)
  {
    match h
    case Upgrade(req, r, p) =>
      var history := v.history + [Tickets.Upgrade(req)];
      var outcome := Outcome(env, v, req);
      if outcome.Refused? then v.(history := history)
      else Service(history, Accepted(v.server, outcome.ticket.sessionId, r, p), v.admittedBy[p := |v.history|])
    case AbortedUpgrade(req) => v.(history := v.history + [Tickets.Upgrade(req)])
    case Shutdown => v.(history := v.history + [Tickets.BeginClose], server := Draining(v.server))
    case Inside(step) => v.(server := Next(v.server, step))
  }

  ghost predicate GoesTo<R, P>(env: Env, v: Service<R, P>, h: Happening<R, P>, w: Service<R, P>) {
    Wired(v.server) && CanHappen(env, v, h) && w == After(env, v, h)
  }

  // ---- The invariant -----------------------------------------------------------------------------

  /** The i-th event of a history is the admission of a ticket to a session. */
  ghost predicate Admits(env: Env, history: seq<Tickets.Event>, i: nat, ticket: string, sessionId: string) {
    && i < |history| && Tickets.AdmitsAt(env, history, i, ticket)
    && Tickets.OutcomeAt(env, history, i).value.ticket.sessionId == sessionId
  }

  ghost predicate HasEntered<R, P>(env: Env, v: Service<R, P>, p: P) {
    && p in v.server.peer && p in v.admittedBy && v.server.peer[p].room in v.server.room
    && exists ticket :: Admits(env, v.history, v.admittedBy[p], ticket, v.server.room[v.server.peer[p].room].key)
  }

  ghost predicate OneHandshakeEach<R, P>(v: Service<R, P>) {
    && (forall p :: p in v.admittedBy ==> p in v.server.peer && v.admittedBy[p] < |v.history|)
    && (forall p, q :: p in v.admittedBy && q in v.admittedBy && v.admittedBy[p] == v.admittedBy[q] ==> p == q)
  }

  ghost predicate ServiceOk<R, P>(env: Env, v: Service<R, P>) {
    && RoomsOk(v.server) && SyncOk(v.server) && OneHandshakeEach(v)
    && Tickets.StateAfter(env, v.history).draining == v.server.draining
    && forall p :: p in v.server.peer ==> HasEntered(env, v, p)
  }

  lemma HistoryExtends(
      env: Env, history: seq<Tickets.Event>, e: Tickets.Event, i: nat, ticket: string, sessionId: string)
    requires Admits(env, history, i, ticket, sessionId)
    ensures Admits(env, history + [e], i, ticket, sessionId)
  {
    assert (history + [e])[..i] == history[..i];
  }

  /** A handshake decides by the state its history leads to, and only a drain raises the flag. */
  lemma HistoryStep(env: Env, history: seq<Tickets.Event>, e: Tickets.Event)
    ensures Tickets.StateAfter(env, history + [e]) == Tickets.AfterEvent(env, Tickets.StateAfter(env, history), e).0
    ensures Tickets.OutcomeAt(env, history + [e], |history|) ==
            Tickets.AfterEvent(env, Tickets.StateAfter(env, history), e).1
  {
    assert (history + [e])[..|history|] == history;
  }

  lemma StaysEntered<R, P>(env: Env, v: Service<R, P>, w: Service<R, P>, p: P)
    requires HasEntered(env, v, p)
    requires w.history == v.history || exists e :: w.history == v.history + [e]
    requires p in w.admittedBy && w.admittedBy[p] == v.admittedBy[p]
    requires p in w.server.peer && w.server.peer[p].room == v.server.peer[p].room
             && w.server.peer[p].room in w.server.room
    requires w.server.room[w.server.peer[p].room].key == v.server.room[v.server.peer[p].room].key
    ensures HasEntered(env, w, p)
  {
    var key := v.server.room[v.server.peer[p].room].key;
    var ticket :| Admits(env, v.history, v.admittedBy[p], ticket, key);
    if w.history != v.history {
      var e :| w.history == v.history + [e];
      HistoryExtends(env, v.history, e, v.admittedBy[p], ticket, key);
    }
    assert Admits(env, w.history, w.admittedBy[p], ticket, key);
  }

  /** A peer keeps its room, and the room its key, through every step. */
  lemma PeerKeepsRoom<R, P>(s: Server<R, P>, step: Step<R, P>, t: Server<R, P>, p: P)
    requires RoomsOk(s) && StepsTo(s, step, t) && p in s.peer
    ensures p in t.peer && t.peer[p].room == s.peer[p].room && t.peer[p].room in t.room
    ensures t.room[t.peer[p].room].key == s.room[s.peer[p].room].key
  {
    StepKeepsDocument(s, step, t, s.peer[p].room);
    match step
    case Frame(q, frame) => FrameKeepsPeersMap(s, q, frame, t);
    case _ => Convergence.QuietStep(s, step, t, p);
  }

  lemma NoNewPeers<R, P>(s: Server<R, P>, step: Step<R, P>, t: Server<R, P>)
    requires StepsTo(s, step, t) && !step.Accept?
    ensures t.peer.Keys == s.peer.Keys
  {
    match step
    case Frame(p, frame) => FrameKeepsPeersMap(s, p, frame, t);
    case _ =>
  }

  lemma OnlyDrainDrains<R, P>(s: Server<R, P>, step: Step<R, P>, t: Server<R, P>)
    requires StepsTo(s, step, t) && !step.Drain?
    ensures t.draining == s.draining
  {
  }

  lemma InsideKeepsService<R, P>(env: Env, v: Service<R, P>, step: Step<R, P>, w: Service<R, P>)
    requires ServiceOk(env, v) && StepsTo(v.server, step, w.server) && !step.Accept? && !step.Drain?
    requires w.history == v.history && w.admittedBy == v.admittedBy
    ensures ServiceOk(env, w)
  {
    StepIsOk(v.server, step, w.server);
    NoNewPeers(v.server, step, w.server);
    OnlyDrainDrains(v.server, step, w.server);
    forall p | p in w.server.peer
      ensures HasEntered(env, w, p)
    {
      PeerKeepsRoom(v.server, step, w.server, p);
      StaysEntered(env, v, w, p);
    }
  }

  lemma ShutdownKeepsService<R, P>(env: Env, v: Service<R, P>, w: Service<R, P>)
    requires ServiceOk(env, v) && StepsTo(v.server, Step<R, P>.Drain, w.server)
    requires w.history == v.history + [Tickets.BeginClose] && w.admittedBy == v.admittedBy
    ensures ServiceOk(env, w)
  {
    var step := Step<R, P>.Drain;
    StepIsOk(v.server, step, w.server);
    NoNewPeers(v.server, step, w.server);
    HistoryStep(env, v.history, Tickets.BeginClose);
    forall p | p in w.server.peer
      ensures HasEntered(env, w, p)
    {
      PeerKeepsRoom(v.server, step, w.server, p);
      StaysEntered(env, v, w, p);
    }
  }

  lemma RefusedKeepsService<R, P>(env: Env, v: Service<R, P>, req: Tickets.Request, w: Service<R, P>)
    requires ServiceOk(env, v) && w == v.(history := v.history + [Tickets.Upgrade(req)])
    ensures ServiceOk(env, w)
  {
    FlagAfterUpgrade(env, v.history, req);
    forall p | p in w.server.peer
      ensures HasEntered(env, w, p)
    {
      StaysEntered(env, v, w, p);
    }
  }

  /** The newcomer's room is the one its own ticket names. */
  lemma NewcomerHasEntered<R, P>(env: Env, v: Service<R, P>, h: Happening<R, P>, w: Service<R, P>)
    requires ServiceOk(env, v) && GoesTo(env, v, h, w) && h.Upgrade? && Outcome(env, v, h.req).Admitted?
    ensures HasEntered(env, w, h.newPeer)
  {
    var e := Tickets.Upgrade(h.req);
    HistoryStep(env, v.history, e);
    var sessionId := Outcome(env, v, h.req).ticket.sessionId;
    AcceptJoins(v.server, sessionId, h.newRoom, h.newPeer, w.server);
    assert Admits(env, w.history, |v.history|, h.req.ticket.value, sessionId);
    assert sessionId in v.server.rooms ==> RoomOk(v.server, v.server.rooms[sessionId]);
  }

  /** An admission is an accept step: the handshake and the server agree on whether they are draining. */
  lemma AdmissionAccepts<R, P>(env: Env, v: Service<R, P>, h: Happening<R, P>, w: Service<R, P>)
    requires GoesTo(env, v, h, w) && h.Upgrade? && Outcome(env, v, h.req).Admitted?
    requires Tickets.StateAfter(env, v.history).draining == v.server.draining
    ensures StepsTo(v.server, Accept(Outcome(env, v, h.req).ticket.sessionId, h.newRoom, h.newPeer), w.server)
    ensures w.history == v.history + [Tickets.Upgrade(h.req)] && w.admittedBy == v.admittedBy[h.newPeer := |v.history|]
    ensures w.server.peer.Keys == v.server.peer.Keys + {h.newPeer} && !w.server.draining
  {
    HandshakeKeepsFlag(env, Tickets.StateAfter(env, v.history), h.req);
  }

  lemma HandshakeKeepsFlag(env: Env, g: Tickets.Gate, req: Tickets.Request)
    ensures Tickets.Authorised(env, g, req).0.draining == g.draining
    ensures Tickets.Authorised(env, g, req).1.Admitted? ==> !g.draining
  {
  }

  lemma FlagAfterUpgrade(env: Env, history: seq<Tickets.Event>, req: Tickets.Request)
    ensures Tickets.StateAfter(env, history + [Tickets.Upgrade(req)]).draining ==
            Tickets.StateAfter(env, history).draining
  {
    HistoryStep(env, history, Tickets.Upgrade(req));
    HandshakeKeepsFlag(env, Tickets.StateAfter(env, history), req);
  }

  lemma OthersHaveEntered<R, P>(env: Env, v: Service<R, P>, step: Step<R, P>, w: Service<R, P>, e: Tickets.Event, p: P)
    requires RoomsOk(v.server) && HasEntered(env, v, p) && StepsTo(v.server, step, w.server)
    requires w.history == v.history + [e] && p in w.admittedBy && w.admittedBy[p] == v.admittedBy[p]
    ensures HasEntered(env, w, p)
  {
    PeerKeepsRoom(v.server, step, w.server, p);
    StaysEntered(env, v, w, p);
  }

  lemma NewHandshake<R, P>(v: Service<R, P>, w: Service<R, P>, p: P)
    requires OneHandshakeEach(v) && |w.history| == |v.history| + 1 && w.admittedBy == v.admittedBy[p := |v.history|]
    requires w.server.peer.Keys == v.server.peer.Keys + {p}
    ensures OneHandshakeEach(w)
  {
  }

  lemma AllHaveEntered<R, P>(env: Env, v: Service<R, P>, step: Step<R, P>, w: Service<R, P>, e: Tickets.Event, p: P)
    requires ServiceOk(env, v) && StepsTo(v.server, step, w.server) && p !in v.admittedBy
    requires w.history == v.history + [e] && w.admittedBy == v.admittedBy[p := |v.history|]
    requires w.server.peer.Keys == v.server.peer.Keys + {p} && HasEntered(env, w, p)
    ensures forall q :: q in w.server.peer ==> HasEntered(env, w, q)
  {
    forall q | q in w.server.peer
      ensures HasEntered(env, w, q)
    {
      if q != p {
        OthersHaveEntered(env, v, step, w, e, q);
      }
    }
  }

  lemma AcceptingKeepsService<R, P>(
      env: Env, v: Service<R, P>, step: Step<R, P>, w: Service<R, P>, e: Tickets.Event, p: P)
    requires ServiceOk(env, v) && StepsTo(v.server, step, w.server) && p !in v.admittedBy
    requires w.history == v.history + [e] && w.admittedBy == v.admittedBy[p := |v.history|]
    requires w.server.peer.Keys == v.server.peer.Keys + {p} && HasEntered(env, w, p)
    requires Tickets.StateAfter(env, w.history).draining == w.server.draining
    ensures ServiceOk(env, w)
  {
    StepIsOk(v.server, step, w.server);
    NewHandshake(v, w, p);
    AllHaveEntered(env, v, step, w, e, p);
  }

  lemma AdmittedKeepsService<R, P>(env: Env, v: Service<R, P>, h: Happening<R, P>, w: Service<R, P>)
    requires ServiceOk(env, v) && GoesTo(env, v, h, w) && h.Upgrade? && Outcome(env, v, h.req).Admitted?
    ensures ServiceOk(env, w)
  {
    var step := Accept(Outcome(env, v, h.req).ticket.sessionId, h.newRoom, h.newPeer);
    AdmissionAccepts(env, v, h, w);
    FlagAfterUpgrade(env, v.history, h.req);
    NewcomerHasEntered(env, v, h, w);
    AcceptingKeepsService(env, v, step, w, Tickets.Upgrade(h.req), h.newPeer);
  }

  lemma HappeningKeepsService<R, P>(env: Env, v: Service<R, P>, h: Happening<R, P>, w: Service<R, P>)
    requires ServiceOk(env, v) && GoesTo(env, v, h, w)
    ensures ServiceOk(env, w)
  {
    match h
    case Inside(step) => InsideKeepsService(env, v, step, w);
    case Shutdown => ShutdownKeepsService(env, v, w);
    case AbortedUpgrade(req) => RefusedKeepsService(env, v, req, w);
    case Upgrade(req, _, _) =>
      if Outcome(env, v, req).Admitted? {
        AdmittedKeepsService(env, v, h, w);
      } else {
        RefusedKeepsService(env, v, req, w);
      }
  }

  // ---- Runs --------------------------------------------------------------------------------------

  ghost predicate IsServiceRun<R, P>(env: Env, run: seq<Service<R, P>>, happenings: seq<Happening<R, P>>) {
    && |run| == |happenings| + 1 && run[0] == Service([], Idle(), map[])
    && forall i: nat :: i < |happenings| ==> GoesAt(env, run, happenings, i)
  }

  ghost predicate GoesAt<R, P>(env: Env, run: seq<Service<R, P>>, happenings: seq<Happening<R, P>>, i: nat) {
    i < |happenings| && i + 1 < |run| && GoesTo(env, run[i], happenings[i], run[i + 1])
  }

  lemma {:induction false} ServiceRunIsOk<R, P>(
      env: Env, run: seq<Service<R, P>>, happenings: seq<Happening<R, P>>, i: nat)
    requires IsServiceRun(env, run, happenings) && i < |run|
    ensures ServiceOk(env, run[i])
  {
    if i == 0 {
      NewServiceIsOk<R, P>(env);
      assert run[i] == Service([], Idle(), map[]);
    } else {
      ServiceRunIsOk(env, run, happenings, i - 1);
      NextServiceIsOk(env, run, happenings, i);
    }
  }

  lemma NextServiceIsOk<R, P>(env: Env, run: seq<Service<R, P>>, happenings: seq<Happening<R, P>>, i: nat)
    requires IsServiceRun(env, run, happenings) && 0 < i < |run| && ServiceOk(env, run[i - 1])
    ensures ServiceOk(env, run[i])
  {
    assert GoesAt(env, run, happenings, i - 1);
    assert run[i - 1 + 1] == run[i];
    HappeningKeepsService(env, run[i - 1], happenings[i - 1], run[i]);
  }

  lemma NewServiceIsOk<R, P>(env: Env)
    ensures ServiceOk(env, Service([], Idle<R, P>(), map[]))
  {
  }

  lemma AdmittedSession(env: Env, history: seq<Tickets.Event>, i: nat, ticket: string, sessionId: string)
    requires Admits(env, history, i, ticket, sessionId)
    ensures env.open(ticket).Ok? && env.open(ticket).value.sessionId == sessionId
  {
  }

  lemma TicketOf<R, P>(env: Env, v: Service<R, P>, p: P) returns (ticket: string)
    requires HasEntered(env, v, p)
    ensures Admits(env, v.history, v.admittedBy[p], ticket, v.server.room[v.server.peer[p].room].key)
    ensures env.open(ticket).Ok? && env.open(ticket).value.sessionId == v.server.room[v.server.peer[p].room].key
  {
    ticket :| Admits(env, v.history, v.admittedBy[p], ticket, v.server.room[v.server.peer[p].room].key);
    AdmittedSession(env, v.history, v.admittedBy[p], ticket, v.server.room[v.server.peer[p].room].key);
  }

  /** Every peer, connected or gone, came in by an admitted handshake, into the room of the session its ticket names. */
  lemma PeerIsInItsTicketsRoom<R, P>(env: Env, run: seq<Service<R, P>>, happenings: seq<Happening<R, P>>, i: nat, p: P)
      returns (ticket: string)
    requires IsServiceRun(env, run, happenings) && i < |run| && p in run[i].server.peer
    ensures
      var v := run[i];
      && p in v.admittedBy && v.server.peer[p].room in v.server.room
      && Admits(env, v.history, v.admittedBy[p], ticket, v.server.room[v.server.peer[p].room].key)
      && env.open(ticket).Ok? && env.open(ticket).value.sessionId == v.server.room[v.server.peer[p].room].key
  {
    ServiceRunIsOk(env, run, happenings, i);
    ticket := TicketOf(env, run[i], p);
  }

  /** One ticket never admits two peers. */
  lemma TicketOpensOneConnection<R, P>(
      env: Env, run: seq<Service<R, P>>, happenings: seq<Happening<R, P>>, i: nat, p: P, q: P, ticket: string)
    requires IsServiceRun(env, run, happenings) && i < |run|
    requires env.retentionMs >= Tickets.REPLAY_RETENTION_MS
    requires Tickets.Monotone(run[i].history) && Tickets.ClaimedInsideWindow(env, run[i].history)
    requires p in run[i].admittedBy && q in run[i].admittedBy
    requires run[i].admittedBy[p] < |run[i].history|
             && Tickets.AdmitsAt(env, run[i].history, run[i].admittedBy[p], ticket)
    requires run[i].admittedBy[q] < |run[i].history|
             && Tickets.AdmitsAt(env, run[i].history, run[i].admittedBy[q], ticket)
    ensures p == q
  {
    ServiceRunIsOk(env, run, happenings, i);
    Tickets.SingleUse(env, run[i].history, run[i].admittedBy[p], run[i].admittedBy[q], ticket);
  }

  lemma HistoryGrows<R, P>(env: Env, v: Service<R, P>, h: Happening<R, P>, w: Service<R, P>)
    requires GoesTo(env, v, h, w)
    ensures |v.history| <= |w.history|
    ensures forall p :: p in w.admittedBy ==>
            (p in v.admittedBy && w.admittedBy[p] == v.admittedBy[p]) || w.admittedBy[p] == |v.history|
  {
  }

  /** No peer is ever admitted by an aborted upgrade. */
  lemma {:induction false} AbortedAdmitsNobody<R, P>(
      env: Env, run: seq<Service<R, P>>, happenings: seq<Happening<R, P>>, i: nat, j: nat, p: P)
    requires IsServiceRun(env, run, happenings) && i < j < |run| && happenings[i].AbortedUpgrade?
    ensures |run[j].history| > |run[i].history|
    ensures p in run[j].admittedBy ==> run[j].admittedBy[p] != |run[i].history|
    decreases j
  {
    assert GoesAt(env, run, happenings, j - 1);
    if i == j - 1 {
      ServiceRunIsOk(env, run, happenings, i);
    } else {
      AbortedAdmitsNobody(env, run, happenings, i, j - 1, p);
      HistoryGrows(env, run[j - 1], happenings[j - 1], run[j]);
    }
  }

  /** An upgrade aborted after its ticket was claimed spends the ticket: it never opens a connection. */
  lemma AbortedTicketIsSpent<R, P>(
      env: Env, run: seq<Service<R, P>>, happenings: seq<Happening<R, P>>, i: nat, j: nat, p: P, ticket: string)
    requires IsServiceRun(env, run, happenings) && i < j < |run| && happenings[i].AbortedUpgrade?
    requires env.retentionMs >= Tickets.REPLAY_RETENTION_MS
    requires Tickets.Monotone(run[j].history) && Tickets.ClaimedInsideWindow(env, run[j].history)
    requires |run[i].history| < |run[j].history| && Tickets.AdmitsAt(env, run[j].history, |run[i].history|, ticket)
    requires p in run[j].admittedBy && run[j].admittedBy[p] < |run[j].history|
    ensures !Tickets.AdmitsAt(env, run[j].history, run[j].admittedBy[p], ticket)
  {
    AbortedAdmitsNobody(env, run, happenings, i, j, p);
    if Tickets.AdmitsAt(env, run[j].history, run[j].admittedBy[p], ticket) {
      Tickets.SingleUse(env, run[j].history, |run[i].history|, run[j].admittedBy[p], ticket);
      assert false;
    }
  }
}

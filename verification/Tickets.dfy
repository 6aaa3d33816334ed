/**
 Admission to the collaboration service: the ticket's age window (packages/auth/src/ws-ticket.ts),
 the single-use store (apps/collab/src/ticket-store.ts) and the handshake that joins them
 (`authorise` in apps/collab/src/server.ts). Instants are milliseconds.
 */
module Tickets {
  import opened Prelude

  const WS_TICKET_TTL_SECONDS := 60
  const WS_TICKET_CLOCK_SKEW_SECONDS := 5
  const REPLAY_RETENTION_MS := (WS_TICKET_TTL_SECONDS + WS_TICKET_CLOCK_SKEW_SECONDS) * 1000
  const SWEEP_INTERVAL_MS := 10_000

  datatype WsTicket = WsTicket(sessionId: string, issuedAt: int)

  datatype AuthError = Malformed | ClaimsInvalid | NotYetValid | Expired

  /**
   What the service is configured with. `open` stands for the envelope's signature check and claim
   parse under one secret, `hash` for `hashToken` under one pepper.
   */
  datatype Env = Env(open: string -> Result<WsTicket, AuthError>, hash: string -> string, retentionMs: int)

  ghost predicate HashInjective(env: Env) {
    forall a, b :: env.hash(a) == env.hash(b) ==> a == b
  }

  /** Signature, then claims, then age. */
  function VerifyWsTicket(env: Env, ticket: string, now: int): Result<WsTicket, AuthError> {
    match env.open(ticket)
    case Err(e) => Err(e)
    case Ok(t) =>
      if now - t.issuedAt < -WS_TICKET_CLOCK_SKEW_SECONDS * 1000 then Err(NotYetValid)
      else if now - t.issuedAt >= WS_TICKET_TTL_SECONDS * 1000 then Err(Expired)
      else Ok(t)
  }

  // ---- The redeemed-ticket store -----------------------------------------------------

  datatype ClaimOutcome = Claimed | Replayed

  /** The store's fields: hash to the instant the entry may be forgotten, and the last sweep. */
  datatype Store = Store(redeemed: map<string, int>, lastSweep: int)

  function Swept(s: Store, now: int): Store {
    if now - s.lastSweep < SWEEP_INTERVAL_MS then s
    else Store(map k | k in s.redeemed && s.redeemed[k] > now :: s.redeemed[k], now)
  }

  function AfterClaim(s: Store, key: string, now: int, retentionMs: int): (Store, ClaimOutcome) {
    var swept := Swept(s, now);
    if key in swept.redeemed && swept.redeemed[key] > now then (swept, Replayed)
    else (swept.(redeemed := swept.redeemed[key := now + retentionMs]), Claimed)
  }

  class TicketStore {
    const env: Env
    var redeemed: map<string, int>
    var lastSweep: int

    ghost function State(): Store
      reads this
    {
      Store(redeemed, lastSweep)
    }

    constructor (env: Env)
      ensures this.env == env && State() == Store(map[], 0)
    {
      this.env := env;
      redeemed, lastSweep := map[], 0;
    }

    method Claim(ticket: string, now: int) returns (outcome: ClaimOutcome)
      modifies this
      ensures (State(), outcome) == AfterClaim(old(State()), env.hash(ticket), now, env.retentionMs)
    {
      Sweep(now);
      var key := env.hash(ticket);
      if key in redeemed && redeemed[key] > now {
        return Replayed;
      }
      redeemed := redeemed[key := now + env.retentionMs];
      return Claimed;
    }

    method Sweep(now: int)
      modifies this
      ensures State() == Swept(old(State()), now)
    {
      if now - lastSweep < SWEEP_INTERVAL_MS {
        return;
      }
      lastSweep := now;
      var pending := redeemed.Keys;
      while pending != {}
        invariant lastSweep == now
        invariant pending <= redeemed.Keys <= old(redeemed).Keys
        invariant forall k :: k in redeemed ==> redeemed[k] == old(redeemed)[k]
        invariant forall k :: k in old(redeemed) && old(redeemed)[k] > now ==> k in redeemed
        invariant forall k :: k in redeemed && k !in pending ==> redeemed[k] > now
        decreases |pending|
      {
        var key :| key in pending;
        pending := pending - {key};
        if redeemed[key] <= now {
          redeemed := redeemed - {key};
        }
      }
    }

    method Clear()
      modifies this
      ensures State() == Store(map[], 0)
    {
      redeemed, lastSweep := map[], 0;
    }
  }

  // ---- The handshake -----------------------------------------------------------------

  /** An upgrade request, with the two instants the handler reads its clock at. */
  datatype Request = Request(segments: seq<string>, ticket: Option<string>, verifyAt: int, claimAt: int)

  datatype Refusal = ShuttingDown | UnknownPath | NoTicket | Unverified(error: AuthError) | ReplayedTicket

  datatype Outcome = Admitted(ticket: WsTicket, roomCode: string) | Refused(reason: Refusal)

  predicate IsAlphanumeric(c: char) {
    'A' <= c <= 'Z' || 'a' <= c <= 'z' || '0' <= c <= '9'
  }

  predicate IsRoomCode(s: string) {
    && 3 <= |s| <= 64
    && IsAlphanumeric(s[0])
    && forall i :: 1 <= i < |s| ==> IsAlphanumeric(s[i]) || s[i] == '_' || s[i] == '-'
  }

  predicate AddressesRoom(segments: seq<string>) {
    |segments| == 2 && segments[0] == "collab" && IsRoomCode(segments[1])
  }

  predicate CarriesTicket(req: Request) {
    req.ticket.Some? && req.ticket.value != ""
  }

  datatype Gate = Gate(draining: bool, store: Store)

  function Authorised(env: Env, g: Gate, req: Request): (Gate, Outcome) {
    if g.draining then (g, Refused(ShuttingDown))
    else if !AddressesRoom(req.segments) then (g, Refused(UnknownPath))
    else if !CarriesTicket(req) then (g, Refused(NoTicket))
    else
      match VerifyWsTicket(env, req.ticket.value, req.verifyAt)
      case Err(e) => (g, Refused(Unverified(e)))
      case Ok(t) =>
        var (store, claim) := AfterClaim(g.store, env.hash(req.ticket.value), req.claimAt, env.retentionMs);
        (g.(store := store), if claim == Replayed then Refused(ReplayedTicket) else Admitted(t, req.segments[1]))
  }

  /** The part of the server that decides upgrades: the drain flag and the ticket store. */
  class Gatekeeper {
    const env: Env
    var draining: bool
    const tickets: TicketStore

    ghost predicate Valid()
      reads this
    {
      tickets.env == env
    }

    ghost function State(): Gate
      reads this, tickets
    {
      Gate(draining, tickets.State())
    }

    constructor (env: Env)
      ensures Valid() && fresh(tickets) && this.env == env && State() == Opened()
    {
      this.env := env;
      draining := false;
      tickets := new TicketStore(env);
    }

    method Authorise(req: Request) returns (outcome: Outcome)
      requires Valid()
      modifies tickets
      ensures (State(), outcome) == Authorised(env, old(State()), req)
    {
      if draining {
        return Refused(ShuttingDown);
      }
      if !AddressesRoom(req.segments) {
        return Refused(UnknownPath);
      }
      if !CarriesTicket(req) {
        return Refused(NoTicket);
      }
      var verified := VerifyWsTicket(env, req.ticket.value, req.verifyAt);
      if verified.Err? {
        return Refused(Unverified(verified.error));
      }
      var claim := tickets.Claim(req.ticket.value, req.claimAt);
      if claim == Replayed {
        return Refused(ReplayedTicket);
      }
      return Admitted(verified.value, req.segments[1]);
    }

    /** `close`: the flag goes up before anything else, the store is emptied last. */
    method BeginClose()
      modifies this`draining
      ensures State() == AfterEvent(env, old(State()), Event.BeginClose).0
    {
      draining := true;
    }

    method EndClose()
      modifies tickets
      requires draining
      ensures State() == AfterEvent(env, old(State()), Event.EndClose).0
    {
      tickets.Clear();
    }
  }

  // ---- Runs --------------------------------------------------------------------------

  datatype Event = Upgrade(req: Request) | BeginClose | EndClose

  function Opened(): Gate {
    Gate(false, Store(map[], 0))
  }

  /** Clearing the store happens only inside a close, so only while draining. */
  function AfterEvent(env: Env, g: Gate, e: Event): (Gate, Option<Outcome>) {
    match e
    case Upgrade(req) =>
      var (after, outcome) := Authorised(env, g, req);
      (after, Some(outcome))
    case BeginClose => (g.(draining := true), None)
    case EndClose => (if g.draining then g.(store := Store(map[], 0)) else g, None)
  }

  function StateAfter(env: Env, run: seq<Event>): Gate {
    if run == [] then Opened()
    else AfterEvent(env, StateAfter(env, run[..|run| - 1]), run[|run| - 1]).0
  }

  function OutcomeAt(env: Env, run: seq<Event>, i: nat): Option<Outcome>
    requires i < |run|
  {
    AfterEvent(env, StateAfter(env, run[..i]), run[i]).1
  }

  predicate AdmitsAt(env: Env, run: seq<Event>, i: nat, ticket: string)
    requires i < |run|
  {
    && run[i].Upgrade? && run[i].req.ticket == Some(ticket)
    && OutcomeAt(env, run, i).value.Admitted?
  }

  /** The clock never runs backwards, within a handshake or between two. */
  ghost predicate Monotone(run: seq<Event>) {
    && (forall i :: 0 <= i < |run| && run[i].Upgrade? ==> run[i].req.verifyAt <= run[i].req.claimAt)
    && (forall i, j :: 0 <= i < j < |run| && run[i].Upgrade? && run[j].Upgrade? ==>
          run[i].req.claimAt <= run[j].req.verifyAt)
  }

  /** Every ticket that verifies is still inside its sixty seconds when it is claimed. */
  ghost predicate ClaimedInsideWindow(env: Env, run: seq<Event>) {
    forall i :: 0 <= i < |run| && run[i].Upgrade? && CarriesTicket(run[i].req) ==>
      var req := run[i].req;
      var verified := VerifyWsTicket(env, req.ticket.value, req.verifyAt);
      verified.Ok? ==> req.claimAt - verified.value.issuedAt < WS_TICKET_TTL_SECONDS * 1000
  }

  /** The handshake reads one instant: then a claim is always made inside the window. */
  lemma OneInstantIsInsideWindow(env: Env, run: seq<Event>)
    requires forall i :: 0 <= i < |run| && run[i].Upgrade? ==> run[i].req.verifyAt == run[i].req.claimAt
    ensures ClaimedInsideWindow(env, run)
  {
  }

  lemma StateStep(env: Env, run: seq<Event>, j: nat)
    requires j < |run|
    ensures StateAfter(env, run[..j + 1]) == AfterEvent(env, StateAfter(env, run[..j]), run[j]).0
  {
    assert run[..j + 1][..j] == run[..j];
  }

  /** Until its retention has elapsed, an admitted ticket stays in the store through every event. */
  lemma {:induction false} Remembered(env: Env, run: seq<Event>, i: nat, j: nat, ticket: string)
    requires i < j <= |run| && Monotone(run)
    requires AdmitsAt(env, run, i, ticket)
    requires forall m :: i < m < j && run[m].Upgrade? ==> run[m].req.claimAt < run[i].req.claimAt + env.retentionMs
    ensures
      var g := StateAfter(env, run[..j]);
      g.draining || (env.hash(ticket) in g.store.redeemed
                     && g.store.redeemed[env.hash(ticket)] >= run[i].req.claimAt + env.retentionMs)
    decreases j
  {
    StateStep(env, run, j - 1);
    if i < j - 1 {
      Remembered(env, run, i, j - 1, ticket);
    }
  }

  /** A second presentation that verifies is admitted exactly when the first has been forgotten. */
  lemma RepeatAdmittedIff(env: Env, run: seq<Event>, i: nat, j: nat, ticket: string)
    requires i < j < |run| && Monotone(run) && HashInjective(env)
    requires AdmitsAt(env, run, i, ticket)
    requires forall m :: i < m < j ==> !AdmitsAt(env, run, m, ticket)
    requires run[j].Upgrade? && run[j].req.ticket == Some(ticket) && AddressesRoom(run[j].req.segments)
    requires ticket != "" && VerifyWsTicket(env, ticket, run[j].req.verifyAt).Ok?
    requires !StateAfter(env, run[..j]).draining
    ensures AdmitsAt(env, run, j, ticket) <==> run[j].req.claimAt >= run[i].req.claimAt + env.retentionMs
  {
    if run[j].req.claimAt < run[i].req.claimAt + env.retentionMs {
      Remembered(env, run, i, j, ticket);
    } else {
      KnownExpiry(env, run, i, j, ticket);
    }
  }

  /** Between two admissions of a ticket its entry, if kept, still carries the first expiry. */
  lemma {:induction false} KnownExpiry(env: Env, run: seq<Event>, i: nat, j: nat, ticket: string)
    requires i < j <= |run| && HashInjective(env)
    requires AdmitsAt(env, run, i, ticket)
    requires forall m :: i < m < j ==> !AdmitsAt(env, run, m, ticket)
    ensures
      var store := StateAfter(env, run[..j]).store;
      env.hash(ticket) in store.redeemed ==> store.redeemed[env.hash(ticket)] == run[i].req.claimAt + env.retentionMs
    decreases j
  {
    StateStep(env, run, j - 1);
    if i < j - 1 {
      KnownExpiry(env, run, i, j - 1, ticket);
      assert !AdmitsAt(env, run, j - 1, ticket);
    }
  }

  /** Single use, over every run: a ticket string is admitted at most once. */
  lemma SingleUse(env: Env, run: seq<Event>, i: nat, j: nat, ticket: string)
    requires env.retentionMs >= REPLAY_RETENTION_MS
    requires Monotone(run) && ClaimedInsideWindow(env, run)
    requires i < |run| && j < |run|
    requires AdmitsAt(env, run, i, ticket) && AdmitsAt(env, run, j, ticket)
    ensures i == j
  {
    if i != j {
      var a, b := if i < j then i else j, if i < j then j else i;
      assert run[b].req.claimAt < run[a].req.claimAt + env.retentionMs;
      Remembered(env, run, a, b, ticket);
      assert false;
    }
  }

  /** Only admissions put entries in the store. */
  lemma {:induction false} StoredWasAdmitted(env: Env, run: seq<Event>, ticket: string)
    requires HashInjective(env)
    requires env.hash(ticket) in StateAfter(env, run).store.redeemed
    ensures exists i :: 0 <= i < |run| && AdmitsAt(env, run, i, ticket)
    decreases |run|
  {
    var n := |run| - 1;
    var before := run[..n];
    if AdmitsAt(env, run, n, ticket) {
    } else {
      StoredWasAdmitted(env, before, ticket);
      var i :| 0 <= i < |before| && AdmitsAt(env, before, i, ticket);
      assert before[..i] == run[..i];
      assert AdmitsAt(env, run, i, ticket);
    }
  }

  ghost predicate AdmittedBefore(env: Env, run: seq<Event>, j: nat, ticket: string)
    requires j <= |run|
  {
    exists i :: 0 <= i < j && AdmitsAt(env, run, i, ticket)
  }

  /** The exact admission rule of the service over a whole run. */
  lemma AdmissionRule(env: Env, run: seq<Event>, j: nat)
    requires env.retentionMs >= REPLAY_RETENTION_MS && HashInjective(env)
    requires Monotone(run) && ClaimedInsideWindow(env, run)
    requires j < |run| && run[j].Upgrade?
    ensures OutcomeAt(env, run, j).value.Admitted? <==>
              && !StateAfter(env, run[..j]).draining
              && AddressesRoom(run[j].req.segments)
              && CarriesTicket(run[j].req)
              && VerifyWsTicket(env, run[j].req.ticket.value, run[j].req.verifyAt).Ok?
              && !AdmittedBefore(env, run, j, run[j].req.ticket.value)
  {
    if CarriesTicket(run[j].req) {
      var ticket := run[j].req.ticket.value;
      if AdmitsAt(env, run, j, ticket) && AdmittedBefore(env, run, j, ticket) {
        var i :| 0 <= i < j && AdmitsAt(env, run, i, ticket);
        SingleUse(env, run, i, j, ticket);
        assert false;
      }
      if env.hash(ticket) in StateAfter(env, run[..j]).store.redeemed {
        StoredWasAdmitted(env, run[..j], ticket);
        var i :| 0 <= i < j && AdmitsAt(env, run[..j], i, ticket);
        assert run[..j][..i] == run[..i];
        assert AdmitsAt(env, run, i, ticket);
      }
    }
  }

  // ---- Why sixty-five seconds ---------------------------------------------------------

  ghost predicate SingleUseAlways(env: Env) {
    forall run, i: nat, j: nat, ticket ::
      (Monotone(run) && ClaimedInsideWindow(env, run) && i < j < |run| && AdmitsAt(env, run, i, ticket))
      ==> !AdmitsAt(env, run, j, ticket)
  }

  function Presented(ticket: string, verifyAt: int, claimAt: int): Event {
    Upgrade(Request(["collab", "abc"], Some(ticket), verifyAt, claimAt))
  }

  lemma TwoPresentations(env: Env, first: Event, second: Event)
    ensures StateAfter(env, [first, second][..0]) == Opened()
    ensures StateAfter(env, [first, second][..1]) == AfterEvent(env, Opened(), first).0
  {
    assert [first, second][..1] == [first] && [first][..0] == [];
  }

  /** TTL plus skew is the least retention that keeps tickets single use. */
  lemma RetentionIsExact(env: Env, ticket: string)
    requires ticket != "" && env.open(ticket).Ok?
    ensures SingleUseAlways(env) <==> env.retentionMs >= REPLAY_RETENTION_MS
  {
    if env.retentionMs >= REPLAY_RETENTION_MS {
      forall run, i: nat, j: nat, t | Monotone(run) && ClaimedInsideWindow(env, run) && i < j < |run|
                                      && AdmitsAt(env, run, i, t) && AdmitsAt(env, run, j, t)
        ensures false
      {
        SingleUse(env, run, i, j, t);
      }
    } else {
      var issued := env.open(ticket).value.issuedAt;
      var early, late := issued - 5_000, issued + 59_999;
      var run := [Presented(ticket, early, early), Presented(ticket, late, late)];
      TwoPresentations(env, run[0], run[1]);
      assert AdmitsAt(env, run, 0, ticket) && AdmitsAt(env, run, 1, ticket);
      assert Monotone(run) && ClaimedInsideWindow(env, run);
    }
  }

  /**
   The two clock reads of one handshake matter: a ticket that verifies one millisecond before it
   expires and is claimed as it expires is admitted a second time, under the shipped retention.
   */
  lemma LateClaimAdmitsTwice(env: Env, ticket: string) returns (run: seq<Event>)
    requires ticket != "" && env.open(ticket).Ok? && env.retentionMs == REPLAY_RETENTION_MS
    ensures Monotone(run) && |run| == 2
    ensures AdmitsAt(env, run, 0, ticket) && AdmitsAt(env, run, 1, ticket)
  {
    var issued := env.open(ticket).value.issuedAt;
    run := [Presented(ticket, issued - 5_000, issued - 5_000), Presented(ticket, issued + 59_999, issued + 60_000)];
    TwoPresentations(env, run[0], run[1]);
  }

  // ---- Bounded memory ----------------------------------------------------------------

  /** No entry predates the last sweep, and the last sweep is not in the future. */
  lemma {:induction false} NothingOlderThanSweep(env: Env, run: seq<Event>, now: nat)
    requires Monotone(run) && env.retentionMs >= 0
    requires forall i :: 0 <= i < |run| && run[i].Upgrade? ==> 0 <= run[i].req.claimAt <= now
    ensures
      var store := StateAfter(env, run).store;
      store.lastSweep <= now && forall k :: k in store.redeemed ==> store.redeemed[k] >= store.lastSweep
    decreases |run|
  {
    if run != [] {
      var n := |run| - 1;
      NothingOlderThanSweep(env, run[..n], if run[n].Upgrade? then run[n].req.claimAt else now);
    }
  }

  /** The store stays small: after a handshake reaches it, nothing in it expired a sweep interval ago. */
  lemma EntriesAreRecent(env: Env, run: seq<Event>, key: string)
    requires Monotone(run) && env.retentionMs >= 0 && run != []
    requires forall i :: 0 <= i < |run| && run[i].Upgrade? ==> 0 <= run[i].req.claimAt
    requires run[|run| - 1].Upgrade?
    requires OutcomeAt(env, run, |run| - 1).value == Refused(ReplayedTicket)
             || OutcomeAt(env, run, |run| - 1).value.Admitted?
    requires key in StateAfter(env, run).store.redeemed
    ensures StateAfter(env, run).store.redeemed[key] > run[|run| - 1].req.claimAt - 10_000
  {
    var n := |run| - 1;
    NothingOlderThanSweep(env, run[..n], run[n].req.claimAt);
  }

  // ---- What each refusal means ---------------------------------------------------------

  /** The age of a ticket when it was verified, in milliseconds. */
  ghost function AgeOf(env: Env, req: Request): int
    requires CarriesTicket(req) && env.open(req.ticket.value).Ok?
  {
    req.verifyAt - env.open(req.ticket.value).value.issuedAt
  }

  /** A request the service can read: not draining, a room's path, a ticket. */
  ghost predicate Readable(g: Gate, req: Request) {
    !g.draining && AddressesRoom(req.segments) && CarriesTicket(req)
  }

  ghost predicate Genuine(env: Env, g: Gate, req: Request) {
    Readable(g, req) && env.open(req.ticket.value).Ok?
  }

  /** Each refusal is given exactly for its own reason, and the first that applies. */
  lemma RefusalsAreExact(env: Env, g: Gate, req: Request)
    ensures
      var outcome := Authorised(env, g, req).1;
      && (outcome == Refused(ShuttingDown) <==> g.draining)
      && (outcome == Refused(UnknownPath) <==>
            && !g.draining
            && (|req.segments| != 2 || req.segments[0] != "collab" || !IsRoomCode(req.segments[1])))
      && (outcome == Refused(NoTicket) <==>
            && !g.draining && AddressesRoom(req.segments)
            && (req.ticket.None? || req.ticket.value == ""))
      && (outcome == Refused(ReplayedTicket) <==>
            && Genuine(env, g, req) && -5_000 <= AgeOf(env, req) < 60_000
            && env.hash(req.ticket.value) in g.store.redeemed
            && g.store.redeemed[env.hash(req.ticket.value)] > req.claimAt)
  {
  }

  lemma UnverifiedIsExact(env: Env, g: Gate, req: Request, e: AuthError)
    ensures Authorised(env, g, req).1 == Refused(Unverified(e)) <==>
              && Readable(g, req)
              && match env.open(req.ticket.value)
                 case Err(error) => e == error
                 case Ok(_) =>
                   (e == NotYetValid && AgeOf(env, req) < -5_000) || (e == Expired && AgeOf(env, req) >= 60_000)
  {
  }

  /**
   An admission carries the ticket's own claims and the room code of the path; only a verified ticket
   touches the store.
   */
  lemma AdmissionCarries(env: Env, g: Gate, req: Request)
    ensures
      var (after, outcome) := Authorised(env, g, req);
      && after.draining == g.draining
      && (outcome.Admitted? ==>
            && Genuine(env, g, req) && outcome.ticket == env.open(req.ticket.value).value
            && |req.segments| == 2 && outcome.roomCode == req.segments[1]
            && env.hash(req.ticket.value) in after.store.redeemed
            && after.store.redeemed[env.hash(req.ticket.value)] == req.claimAt + env.retentionMs)
      && (outcome.Refused? && outcome.reason != ReplayedTicket ==> after == g)
  {
  }

  /** Letters, digits, underscore and hyphen, by their ASCII codes. */
  predicate IsCodeCharacter(c: char) {
    var n := c as int;
    48 <= n <= 57 || 65 <= n <= 90 || 97 <= n <= 122 || n == 95 || n == 45
  }

  /** A room code: 3 to 64 letters, digits, underscores and hyphens, starting with neither of the last two. */
  lemma RoomCodesAre(s: string)
    ensures IsRoomCode(s) <==>
              2 < |s| < 65 && s[0] != '_' && s[0] != '-' && forall i :: 0 <= i < |s| ==> IsCodeCharacter(s[i])
  {
  }

  /** A sweep drops exactly the expired entries, and runs only when ten seconds have passed since the last. */
  lemma SweepsAreAmortised(s: Store, now: int, key: string)
    ensures now < s.lastSweep + 10_000 ==> Swept(s, now) == s
    ensures now >= s.lastSweep + 10_000 ==>
              && Swept(s, now).lastSweep == now
              && (key in Swept(s, now).redeemed <==> key in s.redeemed && s.redeemed[key] > now)
              && (key in Swept(s, now).redeemed ==> Swept(s, now).redeemed[key] == s.redeemed[key])
  {
  }
}

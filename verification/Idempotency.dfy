/**
 Idempotent execution (apps/worker/src/idempotency.ts) as a state machine over await points. Between
 two awaits the event loop runs one call at a time, so a step is what one call does from one await to
 the next; any enabled call may take the next step.
 */
module Idempotency {
  import opened Prelude
  import opened JobId

  // ---- Records -----------------------------------------------------------------------------

  /** A result: `undefined`, or a value given by its JSON text. */
  datatype Js = Undefined | Json(text: string)

  /** A stored string: a JSON object with an optional `v`, or something that is not a record. */
  datatype Raw = Doc(v: Option<string>) | Unreadable

  /** `JSON.stringify({ v: result })`, which leaves an undefined `v` out. */
  function Stringify(result: Js): Raw {
    match result
    case Undefined => Doc(None)
    case Json(text) => Doc(Some(text))
  }

  function ReviveRecord(raw: Raw): Option<Js> {
    match raw
    case Doc(None) => Some(Undefined)
    case Doc(Some(text)) => Some(Json(text))
    case Unreadable => None
  }

  /** A recorded `undefined` is a record like any other. */
  lemma ReviveInvertsStringify(result: Js)
    ensures ReviveRecord(Stringify(result)) == Some(result)
  {
  }

  // ---- The in-process store ------------------------------------------------------------------

  datatype Entry = Entry(raw: Raw, expiresAtMs: int)

  type Entries = map<string, Entry>

  function Lookup(entries: Entries, key: string, now: int): (Entries, Option<Raw>) {
    if key !in entries then (entries, None)
    else if entries[key].expiresAtMs <= now then (entries - {key}, None)
    else (entries, Some(entries[key].raw))
  }

  function Put(entries: Entries, key: string, raw: Raw, now: int, ttlSeconds: int): Entries {
    entries[key := Entry(raw, now + ttlSeconds * 1000)]
  }

  class MemoryIdempotencyStore {
    var entries: Entries

    constructor ()
      ensures entries == map[]
    {
      entries := map[];
    }

    method Get(key: string, now: int) returns (r: Option<Raw>)
      modifies this
      ensures (entries, r) == Lookup(old(entries), key, now)
    {
      if key !in entries {
        return None;
      }
      if entries[key].expiresAtMs <= now {
        entries := entries - {key};
        return None;
      }
      return Some(entries[key].raw);
    }

    method Set(key: string, value: Raw, ttlSeconds: int, now: int)
      modifies this
      ensures entries == Put(old(entries), key, value, now, ttlSeconds)
    {
      entries := entries[key := Entry(value, now + ttlSeconds * 1000)];
    }

    method Delete(key: string)
      modifies this
      ensures entries == old(entries) - {key}
    {
      entries := entries - {key};
    }
  }

  // ---- Calls ---------------------------------------------------------------------------------

  datatype Outcome = Returned(value: Js) | Threw

  /** Where a call stands. A leader owns the in-flight promise of its key; a joiner awaits it. */
  datatype Phase =
    | Reading                              // awaiting store.get
    | Loaded(raw: Option<Raw>, at: int)    // store.get has answered
    | Executing                            // awaiting fn()
    | Writing(result: Js)                  // awaiting store.set
    | Settled(outcome: Outcome)            // the shared promise has settled, `finally` has not run
    | Done(outcome: Outcome)
    | Joined(leader: nat)
    | JoinDone(leader: nat, outcome: Outcome)

  datatype Call = Call(key: string, ttlSeconds: int, phase: Phase)

  /** What happened, in order. */
  datatype Event =
    | Started(call: nat, key: string, at: int)
    | Recorded(call: nat, key: string, value: Js, expiresAtMs: int, acknowledged: bool)
    | Replayed(call: nat, key: string, value: Js, loadedAt: int)

  datatype State = State(now: int, inFlight: map<string, nat>, entries: Entries, calls: map<nat, Call>, log: seq<Event>)

  datatype Step =
    | Invoke(call: nat, key: string, ttlSeconds: int)
    | Load(call: nat)
    | LoadFails(call: nat)
    | Resume(call: nat, decodes: bool)
    | FnReturns(call: nat, result: Js)
    | FnThrows(call: nat)
    | Write(call: nat)
    | WriteFails(call: nat)
    | WriteUnacknowledged(call: nat)
    | Finally(call: nat)
    | Wake(call: nat)
    | Tick(now: int)

  predicate Live(p: Phase) {
    p.Reading? || p.Loaded? || p.Executing? || p.Writing? || p.Settled?
  }

  predicate HasOutcome(p: Phase, outcome: Outcome) {
    p == Settled(outcome) || p == Done(outcome)
  }

  predicate Enabled(s: State, step: Step) {
    match step
    case Invoke(c, _, _) => c !in s.calls
    case Load(c) => c in s.calls && s.calls[c].phase.Reading?
    case LoadFails(c) => c in s.calls && s.calls[c].phase.Reading?
    case Resume(c, _) => c in s.calls && s.calls[c].phase.Loaded?
    case FnReturns(c, _) => c in s.calls && s.calls[c].phase.Executing?
    case FnThrows(c) => c in s.calls && s.calls[c].phase.Executing?
    case Write(c) => c in s.calls && s.calls[c].phase.Writing?
    case WriteFails(c) => c in s.calls && s.calls[c].phase.Writing?
    case WriteUnacknowledged(c) => c in s.calls && s.calls[c].phase.Writing?
    case Finally(c) => c in s.calls && s.calls[c].phase.Settled?
    case Wake(c) =>
      && c in s.calls && s.calls[c].phase.Joined?
      && s.calls[c].phase.leader in s.calls
      && (s.calls[s.calls[c].phase.leader].phase.Settled? || s.calls[s.calls[c].phase.leader].phase.Done?)
    case Tick(now) => s.now <= now
  }

  function Move(s: State, c: nat, p: Phase): State
    requires c in s.calls
  {
    s.(calls := s.calls[c := s.calls[c].(phase := p)])
  }

  /** A write that takes effect, whatever the caller is then told. */
  function Stored(s: State, c: nat, outcome: Outcome): State
    requires c in s.calls && s.calls[c].phase.Writing?
  {
    var call := s.calls[c];
    var value := call.phase.result;
    Move(s, c, Settled(outcome))
      .(entries := Put(s.entries, call.key, Stringify(value), s.now, call.ttlSeconds),
        log := s.log + [Recorded(c, call.key, value, s.now + call.ttlSeconds * 1000, outcome.Returned?)])
  }

  function Next(s: State, step: Step): State
    requires Enabled(s, step)
  {
    match step
    case Invoke(c, key, ttl) =>
      if AssertBusinessKey(key).Err? then s.(calls := s.calls[c := Call(key, ttl, Done(Threw))])
      else if key in s.inFlight then s.(calls := s.calls[c := Call(key, ttl, Joined(s.inFlight[key]))])
      else s.(calls := s.calls[c := Call(key, ttl, Reading)], inFlight := s.inFlight[key := c])
    case Load(c) =>
      var (entries, raw) := Lookup(s.entries, s.calls[c].key, s.now);
      Move(s, c, Loaded(raw, s.now)).(entries := entries)
    case LoadFails(c) => Move(s, c, Settled(Threw))
    case Resume(c, decodes) =>
      var p := s.calls[c].phase;
      var revived := if p.raw.Some? then ReviveRecord(p.raw.value) else None;
      if revived.Some? then
        Move(s, c, Settled(if decodes then Returned(revived.value) else Threw))
          .(log := s.log + [Replayed(c, s.calls[c].key, revived.value, p.at)])
      else Move(s, c, Executing).(log := s.log + [Started(c, s.calls[c].key, s.now)])
    case FnReturns(c, result) => Move(s, c, Writing(result))
    case FnThrows(c) => Move(s, c, Settled(Threw))
    case Write(c) => Stored(s, c, Returned(s.calls[c].phase.result))
    case WriteFails(c) => Move(s, c, Settled(Threw))
    case WriteUnacknowledged(c) => Stored(s, c, Threw)
    case Finally(c) =>
      Move(s, c, Done(s.calls[c].phase.outcome)).(inFlight := s.inFlight - {s.calls[c].key})
    case Wake(c) =>
      var leader := s.calls[c].phase.leader;
      Move(s, c, JoinDone(leader, s.calls[leader].phase.outcome))
    case Tick(now) => s.(now := now)
  }

  // ---- Runs ----------------------------------------------------------------------------------

  /** A process starts idle, over a store that may already hold anything. */
  predicate Initial(s: State) {
    s.inFlight == map[] && s.calls == map[] && s.log == []
  }

  /** The states of a run: an initial one, then one step at a time, in any interleaving. */
  ghost predicate IsRun(run: seq<State>) {
    && run != [] && Initial(run[0])
    && forall i: nat :: i + 1 < |run| ==> FollowsAt(run, i)
  }

  ghost predicate FollowsAt(run: seq<State>, i: nat) {
    i + 1 < |run| && Follows(run[i], run[i + 1])
  }

  ghost predicate Follows(s: State, t: State) {
    exists step :: Enabled(s, step) && t == Next(s, step)
  }

  // ---- The invariant ---------------------------------------------------------------------------

  /** The in-flight map names exactly the live leader of each key. */
  ghost predicate OneLeader(s: State) {
    && (forall k :: k in s.inFlight ==>
         s.inFlight[k] in s.calls && s.calls[s.inFlight[k]].key == k && Live(s.calls[s.inFlight[k]].phase))
    && (forall c :: c in s.calls && Live(s.calls[c].phase) ==>
         s.calls[c].key in s.inFlight && s.inFlight[s.calls[c].key] == c)
  }

  /** A joiner follows a leader of its own key, and ends with that leader's outcome. */
  ghost predicate JoinersFollow(s: State) {
    && (forall c :: c in s.calls && s.calls[c].phase.Joined? ==>
          var l := s.calls[c].phase.leader;
          l in s.calls && s.calls[l].key == s.calls[c].key && (Live(s.calls[l].phase) || s.calls[l].phase.Done?))
    && (forall c :: c in s.calls && s.calls[c].phase.JoinDone? ==>
          var l := s.calls[c].phase.leader;
          l in s.calls && s.calls[l].key == s.calls[c].key && HasOutcome(s.calls[l].phase, s.calls[c].phase.outcome))
  }

  /** The store holds no record for `key` that a read at `now` could return. */
  ghost predicate NothingToReplay(s: State, key: string) {
    key !in s.entries || s.entries[key].expiresAtMs <= s.now || ReviveRecord(s.entries[key].raw).None?
  }

  ghost predicate Missed(p: Phase) {
    (p.Loaded? && (p.raw.None? || ReviveRecord(p.raw.value).None?)) || p.Executing? || p.Writing?
  }

  /** A call that is about to execute, or executing, found nothing, and there still is nothing. */
  ghost predicate MissesHold(s: State) {
    forall c :: c in s.calls && Missed(s.calls[c].phase) ==> NothingToReplay(s, s.calls[c].key)
  }

  /** Until it expires, a record made here is what the store holds. */
  ghost predicate RecordsKept(s: State) {
    forall i :: 0 <= i < |s.log| && s.log[i].Recorded? && s.log[i].expiresAtMs > s.now ==>
      var r := s.log[i];
      r.key in s.entries && s.entries[r.key] == Entry(Stringify(r.value), r.expiresAtMs)
  }

  /** A read made before a record expires returns that record. */
  ghost predicate LoadsAgree(s: State) {
    forall c, i :: c in s.calls && s.calls[c].phase.Loaded? && 0 <= i < |s.log| && s.log[i].Recorded?
                   && s.log[i].key == s.calls[c].key && s.log[i].expiresAtMs > s.calls[c].phase.at ==>
      s.calls[c].phase.raw == Some(Stringify(s.log[i].value))
  }

  /** No event before a record's expiry contradicts it. */
  ghost predicate Respects(before: Event, after: Event) {
    before.Recorded? && before.key == after.key ==>
      && (after.Started? ==> after.at >= before.expiresAtMs)
      && (after.Replayed? && after.loadedAt < before.expiresAtMs ==> after.value == before.value)
  }

  ghost predicate HistoryRespected(s: State) {
    forall i, j :: 0 <= i < j < |s.log| ==> Respects(s.log[i], s.log[j])
  }

  /** A call that left a record returned that result, or its write took effect and threw. */
  ghost predicate RecordersReturned(s: State) {
    && (forall i :: 0 <= i < |s.log| && s.log[i].Recorded? ==>
          && s.log[i].call in s.calls
          && HasOutcome(s.calls[s.log[i].call].phase,
                        if s.log[i].acknowledged then Returned(s.log[i].value) else Threw))
    && (forall c :: c in s.calls && s.calls[c].phase.Loaded? ==> s.calls[c].phase.at <= s.now)
  }

  ghost predicate Inv(s: State) {
    && OneLeader(s) && JoinersFollow(s) && MissesHold(s)
    && RecordsKept(s) && LoadsAgree(s) && HistoryRespected(s) && RecordersReturned(s)
  }

  /** A leader moving from one live phase to another keeps its place. */
  lemma MoveKeepsLeader(s: State, c: nat, p: Phase)
    requires OneLeader(s) && c in s.calls && (Live(p) <==> Live(s.calls[c].phase))
    ensures OneLeader(Move(s, c, p))
  {
  }

  lemma InvokeKeepsLeader(s: State, step: Step)
    requires OneLeader(s) && Enabled(s, step) && step.Invoke?
    ensures OneLeader(Next(s, step))
  {
  }

  lemma FinallyFreesKey(s: State, c: nat)
    requires OneLeader(s) && Enabled(s, Finally(c))
    ensures OneLeader(Next(s, Finally(c))) && s.calls[c].key !in Next(s, Finally(c)).inFlight
  {
  }

  lemma LeaderKept(s: State, step: Step)
    requires OneLeader(s) && Enabled(s, step)
    ensures OneLeader(Next(s, step))
  {
    match step
    case Invoke(_, _, _) => InvokeKeepsLeader(s, step);
    case Finally(c) => FinallyFreesKey(s, c);
    case Tick(_) =>
    case _ => MoveKeepsLeader(s, step.call, Next(s, step).calls[step.call].phase);
  }

  /** A leader moving on takes its joiners with it: a settled outcome does not change. */
  lemma MoveKeepsJoiners(s: State, c: nat, p: Phase)
    requires JoinersFollow(s) && c in s.calls && Live(s.calls[c].phase)
    requires if s.calls[c].phase.Settled? then p == Done(s.calls[c].phase.outcome) else Live(p)
    ensures JoinersFollow(Move(s, c, p))
  {
  }

  lemma InvokeKeepsJoiners(s: State, step: Step)
    requires OneLeader(s) && JoinersFollow(s) && Enabled(s, step) && step.Invoke?
    ensures JoinersFollow(Next(s, step))
  {
  }

  lemma WakeKeepsJoiners(s: State, c: nat)
    requires JoinersFollow(s) && Enabled(s, Wake(c))
    ensures JoinersFollow(Next(s, Wake(c)))
  {
  }

  lemma JoinersKept(s: State, step: Step)
    requires OneLeader(s) && JoinersFollow(s) && Enabled(s, step)
    ensures JoinersFollow(Next(s, step))
  {
    match step
    case Invoke(_, _, _) => InvokeKeepsJoiners(s, step);
    case Wake(c) => WakeKeepsJoiners(s, c);
    case Tick(_) =>
    case _ => MoveKeepsJoiners(s, step.call, Next(s, step).calls[step.call].phase);
  }

  lemma MissesKept(s: State, step: Step)
    requires OneLeader(s) && MissesHold(s) && Enabled(s, step)
    ensures MissesHold(Next(s, step))
  {
  }

  lemma RecordsStay(s: State, step: Step)
    requires MissesHold(s) && RecordsKept(s) && Enabled(s, step)
    ensures RecordsKept(Next(s, step))
  {
  }

  predicate Stores(step: Step) {
    step.Write? || step.WriteUnacknowledged?
  }

  /** The load itself, and a new record: the leader that makes it is past its own read. */
  lemma StoreStepKeepsLoads(s: State, step: Step)
    requires OneLeader(s) && RecordsKept(s) && LoadsAgree(s) && Enabled(s, step) && (step.Load? || Stores(step))
    ensures LoadsAgree(Next(s, step))
  {
  }

  lemma QuietStepKeepsLoads(s: State, step: Step)
    requires LoadsAgree(s) && Enabled(s, step) && !step.Load? && !Stores(step)
    ensures LoadsAgree(Next(s, step))
  {
  }

  lemma LoadsKept(s: State, step: Step)
    requires OneLeader(s) && RecordsKept(s) && LoadsAgree(s) && Enabled(s, step)
    ensures LoadsAgree(Next(s, step))
  {
    if step.Load? || Stores(step) {
      StoreStepKeepsLoads(s, step);
    } else {
      QuietStepKeepsLoads(s, step);
    }
  }

  lemma HistoryKept(s: State, step: Step)
    requires MissesHold(s) && RecordsKept(s) && LoadsAgree(s) && HistoryRespected(s) && Enabled(s, step)
    ensures HistoryRespected(Next(s, step))
  {
  }

  lemma StoringKeepsRecorders(s: State, step: Step)
    requires RecordersReturned(s) && Enabled(s, step) && Stores(step)
    ensures RecordersReturned(Next(s, step))
  {
  }

  lemma OtherStepsKeepRecorders(s: State, step: Step)
    requires RecordersReturned(s) && Enabled(s, step) && !Stores(step)
    ensures RecordersReturned(Next(s, step))
  {
  }

  lemma RecordersKept(s: State, step: Step)
    requires RecordersReturned(s) && Enabled(s, step)
    ensures RecordersReturned(Next(s, step))
  {
    if Stores(step) {
      StoringKeepsRecorders(s, step);
    } else {
      OtherStepsKeepRecorders(s, step);
    }
  }

  lemma StepKeepsInv(s: State, step: Step)
    requires Inv(s) && Enabled(s, step)
    ensures Inv(Next(s, step))
  {
    LeaderKept(s, step);
    JoinersKept(s, step);
    MissesKept(s, step);
    RecordsStay(s, step);
    LoadsKept(s, step);
    HistoryKept(s, step);
    RecordersKept(s, step);
  }

  lemma {:induction false} RunKeepsInv(run: seq<State>, i: nat)
    requires IsRun(run) && i < |run|
    ensures Inv(run[i])
  {
    if i > 0 {
      RunKeepsInv(run, i - 1);
      var step := StepInto(run, i);
      StepKeepsInv(run[i - 1], step);
    }
  }

  /** The step that made a state of a run. */
  lemma StepInto(run: seq<State>, i: nat) returns (step: Step)
    requires 0 < i < |run| && FollowsAt(run, i - 1)
    ensures Enabled(run[i - 1], step) && run[i] == Next(run[i - 1], step)
  {
    assert Follows(run[i - 1], run[i - 1 + 1]);
    step :| Enabled(run[i - 1], step) && run[i - 1 + 1] == Next(run[i - 1], step);
  }

  // ---- What every run guarantees -----------------------------------------------------------------

  /** At most one execution per key is ever in progress. */
  lemma SingleFlight(run: seq<State>, i: nat, a: nat, b: nat)
    requires IsRun(run) && i < |run|
    requires a in run[i].calls && b in run[i].calls && run[i].calls[a].key == run[i].calls[b].key
    requires run[i].calls[a].phase.Executing? && run[i].calls[b].phase.Executing?
    ensures a == b
  {
    RunKeepsInv(run, i);
  }

  /** A call that joined ends with its leader's outcome. */
  lemma JoinerGetsLeadersOutcome(run: seq<State>, i: nat, c: nat)
    requires IsRun(run) && i < |run| && c in run[i].calls && run[i].calls[c].phase.JoinDone?
    ensures
      var l := run[i].calls[c].phase.leader;
      && l in run[i].calls && run[i].calls[l].key == run[i].calls[c].key
      && HasOutcome(run[i].calls[l].phase, run[i].calls[c].phase.outcome)
  {
    RunKeepsInv(run, i);
  }

  /**
   A record was left by a failed call exactly when its write took effect and then threw; every other
   failure leaves no trace. A key is busy exactly while a leader for it is at work.
   */
  lemma FailureLeavesNoTrace(run: seq<State>, i: nat, j: nat, k: string)
    requires IsRun(run) && i < |run|
    ensures
      var s := run[i];
      j < |s.log| && s.log[j].Recorded? ==>
        && s.log[j].call in s.calls
        && (HasOutcome(s.calls[s.log[j].call].phase, Threw) <==> !s.log[j].acknowledged)
        && (HasOutcome(s.calls[s.log[j].call].phase, Returned(s.log[j].value)) <==> s.log[j].acknowledged)
    ensures k in run[i].inFlight
            <==> exists l :: l in run[i].calls && run[i].calls[l].key == k && Live(run[i].calls[l].phase)
  {
    RunKeepsInv(run, i);
  }

  /** A run in which a call throws and yet leaves a record: its write took effect, its answer was lost. */
  lemma LostWriteLeavesRecord(key: string, result: Js) returns (run: seq<State>)
    requires AssertBusinessKey(key).Ok?
    ensures IsRun(run)
    ensures
      var s := run[|run| - 1];
      && 0 in s.calls && s.calls[0].key == key && HasOutcome(s.calls[0].phase, Threw)
      && key in s.entries && ReviveRecord(s.entries[key].raw) == Some(result)
  {
    var s0 := State(0, map[], map[], map[], []);
    var s3 := Alone(key, Executing);
    var s1, s2 := CallStarts(key, s0, s3);
    var s4 := Alone(key, Writing(result));
    var s5 := CallEnds(key, result, s3, s4);
    run := [s0, s1, s2, s3, s4, s5];
    assert FollowsAt(run, 0) && FollowsAt(run, 1) && FollowsAt(run, 2) && FollowsAt(run, 3) && FollowsAt(run, 4);
  }

  /** A process in which one call is past its read. */
  function Alone(key: string, p: Phase): State {
    State(0, map[key := 0], map[], map[0 := Call(key, 60, p)], [Started(0, key, 0)])
  }

  lemma CallStarts(key: string, s0: State, s3: State) returns (s1: State, s2: State)
    requires AssertBusinessKey(key).Ok? && s0 == State(0, map[], map[], map[], []) && s3 == Alone(key, Executing)
    ensures Follows(s0, s1) && Follows(s1, s2) && Follows(s2, s3)
  {
    s1 := Next(s0, Invoke(0, key, 60));
    s2 := Next(s1, Load(0));
    assert s3 == Next(s2, Resume(0, true));
  }

  lemma CallEnds(key: string, result: Js, s3: State, s4: State) returns (s5: State)
    requires s3 == Alone(key, Executing) && s4 == Alone(key, Writing(result))
    ensures Follows(s3, s4) && Follows(s4, s5)
    ensures 0 in s5.calls && s5.calls[0].key == key && HasOutcome(s5.calls[0].phase, Threw)
    ensures key in s5.entries && ReviveRecord(s5.entries[key].raw) == Some(result)
  {
    assert s4 == Next(s3, FnReturns(0, result));
    s5 := Next(s4, WriteUnacknowledged(0));
  }

  /** Once a result is recorded, the effect does not start again before the record expires. */
  lemma NoReexecutionBeforeExpiry(run: seq<State>, i: nat, a: nat, b: nat)
    requires IsRun(run) && i < |run| && a < b < |run[i].log|
    requires run[i].log[a].Recorded? && run[i].log[b].Started? && run[i].log[a].key == run[i].log[b].key
    ensures run[i].log[b].at >= run[i].log[a].expiresAtMs
  {
    RunKeepsInv(run, i);
    assert Respects(run[i].log[a], run[i].log[b]);
  }

  /** A redelivery that reads the store before the record expires is handed the recorded result. */
  lemma ReplayReturnsTheRecord(run: seq<State>, i: nat, a: nat, b: nat)
    requires IsRun(run) && i < |run| && a < b < |run[i].log|
    requires run[i].log[a].Recorded? && run[i].log[b].Replayed? && run[i].log[a].key == run[i].log[b].key
    requires run[i].log[b].loadedAt < run[i].log[a].expiresAtMs
    ensures run[i].log[b].value == run[i].log[a].value
  {
    RunKeepsInv(run, i);
    assert Respects(run[i].log[a], run[i].log[b]);
  }

  // ---- What each step does -----------------------------------------------------------------------

  /** A record is read back until it expires, under its own key only; an expired one is forgotten. */
  lemma StoreKeepsUntilExpiry(
      entries: Entries, key: string, raw: Raw, at: int, ttlSeconds: int, other: string, now: int)
    ensures
      var after := Put(entries, key, raw, at, ttlSeconds);
      && Lookup(after, key, now).1 == (if now < at + ttlSeconds * 1000 then Some(raw) else None)
      && (now >= at + ttlSeconds * 1000 ==> key !in Lookup(after, key, now).0)
      && (now < at + ttlSeconds * 1000 ==> Lookup(after, key, now).0 == after)
      && (other != key ==> Lookup(after, other, now).1 == Lookup(entries, other, now).1)
  {
  }

  /**
   A call with a bad key fails at once; one whose key is busy joins the call at work; any other leads,
   and makes its key busy.
   */
  lemma InvokeJoinsOrLeads(s: State, c: nat, key: string, ttlSeconds: int)
    requires Enabled(s, Invoke(c, key, ttlSeconds))
    ensures
      var t := Next(s, Invoke(c, key, ttlSeconds));
      && t == s.(calls := t.calls, inFlight := t.inFlight) && c in t.calls && t.calls == s.calls[c := t.calls[c]]
      && t.calls[c].key == key && t.calls[c].ttlSeconds == ttlSeconds
      && (AssertBusinessKey(key).Err? ==> t.calls[c].phase == Done(Threw) && t.inFlight == s.inFlight)
      && (AssertBusinessKey(key).Ok? && key in s.inFlight ==>
            t.calls[c].phase == Joined(s.inFlight[key]) && t.inFlight == s.inFlight)
      && (AssertBusinessKey(key).Ok? && key !in s.inFlight ==>
            t.calls[c].phase == Reading && t.inFlight == s.inFlight[key := c])
  {
  }

  /**
   A leader executes exactly when it read no record, and otherwise settles with the record it read, or
   throws if that does not decode.
   */
  lemma LeaderExecutesOrReplays(s: State, c: nat, decodes: bool)
    requires Enabled(s, Resume(c, decodes))
    ensures
      var t, raw := Next(s, Resume(c, decodes)), s.calls[c].phase.raw;
      && t.entries == s.entries && t.inFlight == s.inFlight && c in t.calls
      && (raw.None? || raw.value.Unreadable? <==> t.calls[c].phase == Executing)
      && (t.calls[c].phase == Executing ==> t.log == s.log + [Started(c, s.calls[c].key, s.now)])
      && forall value :: raw == Some(Stringify(value)) ==>
           t.calls[c].phase == Settled(if decodes then Returned(value) else Threw)
  {
  }

  /** Every failure on the way settles the call as a throw, with the store as it was; `finally` keeps the outcome. */
  lemma FailuresSettle(s: State, step: Step, c: nat)
    requires Enabled(s, step) && step in [LoadFails(c), FnThrows(c), WriteFails(c), Finally(c)]
    ensures
      var t := Next(s, step);
      && t.entries == s.entries && t.log == s.log && c in t.calls && c in s.calls
      && (!step.Finally? ==> t.calls[c].phase == Settled(Threw) && t.inFlight == s.inFlight)
      && (step.Finally? ==> t.calls[c].phase == Done(s.calls[c].phase.outcome))
  {
  }

  /** What the call did earns what it returns: its own recorded result, or one it replayed. */
  ghost predicate EarnedBy(e: Event, c: nat, value: Js) {
    || (e.Recorded? && e.call == c && e.value == value && e.acknowledged)
    || (e.Replayed? && e.call == c && e.value == value)
  }

  predicate HasReturned(p: Phase) {
    (p.Settled? || p.Done?) && p.outcome.Returned?
  }

  ghost predicate AllEarned(s: State) {
    forall c :: c in s.calls && HasReturned(s.calls[c].phase) ==>
      exists j :: 0 <= j < |s.log| && EarnedBy(s.log[j], c, s.calls[c].phase.outcome.value)
  }

  lemma LogGrows(s: State, step: Step)
    requires Enabled(s, step)
    ensures s.log <= Next(s, step).log
  {
  }

  lemma SettlesByEarning(s: State, step: Step, c: nat)
    requires Enabled(s, step) && (step == Write(c) || exists decodes :: step == Resume(c, decodes))
    ensures
      var t := Next(s, step);
      c in t.calls && (t.calls[c].phase.Settled? && t.calls[c].phase.outcome.Returned? ==>
        |t.log| > 0 && EarnedBy(t.log[|t.log| - 1], c, t.calls[c].phase.outcome.value))
  {
  }

  lemma EarningKept(s: State, step: Step)
    requires AllEarned(s) && Enabled(s, step)
    ensures AllEarned(Next(s, step))
  {
    var t := Next(s, step);
    LogGrows(s, step);
    forall c | c in t.calls && HasReturned(t.calls[c].phase)
      ensures exists j :: 0 <= j < |t.log| && EarnedBy(t.log[j], c, t.calls[c].phase.outcome.value)
    {
      if step == Write(c) || (step.Resume? && step.call == c) {
        SettlesByEarning(s, step, c);
      } else {
        assert c in s.calls && s.calls[c].phase.outcome == t.calls[c].phase.outcome;
        var j :| 0 <= j < |s.log| && EarnedBy(s.log[j], c, s.calls[c].phase.outcome.value);
        assert EarnedBy(t.log[j], c, t.calls[c].phase.outcome.value);
      }
    }
  }

  /** In every run a leader returns a value only if it recorded that value, or replayed it from a record. */
  lemma {:induction false} ResultsAreEarned(run: seq<State>, i: nat)
    requires IsRun(run) && i < |run|
    ensures AllEarned(run[i])
  {
    if i > 0 {
      ResultsAreEarned(run, i - 1);
      var step := StepInto(run, i);
      EarningKept(run[i - 1], step);
    }
  }

  /** A joiner wakes with its leader's outcome, and leaves everything else alone. */
  lemma JoinerWakes(s: State, c: nat)
    requires Enabled(s, Wake(c))
    ensures
      var t, leader := Next(s, Wake(c)), s.calls[c].phase.leader;
      && t == s.(calls := t.calls) && c in t.calls && t.calls == s.calls[c := t.calls[c]]
      && t.calls[c] == s.calls[c].(phase := t.calls[c].phase) && t.calls[c].phase.JoinDone?
      && t.calls[c].phase.leader == leader && HasOutcome(s.calls[leader].phase, t.calls[c].phase.outcome)
  {
  }

  /** A read sees the record exactly while it has not expired, and drops it exactly when it has. */
  lemma LoadReadsTheStore(s: State, c: nat)
    requires Enabled(s, Load(c))
    ensures
      var t, key := Next(s, Load(c)), s.calls[c].key;
      && t.log == s.log && t.inFlight == s.inFlight && c in t.calls && t.calls[c].phase.Loaded?
      && t.calls[c].phase.at == s.now
      && (forall raw :: t.calls[c].phase.raw == Some(raw) <==>
                          key in s.entries && s.entries[key].raw == raw && s.now < s.entries[key].expiresAtMs)
      && (key in t.entries <==> key in s.entries && s.now < s.entries[key].expiresAtMs)
      && (forall k :: k != key ==>
           (k in t.entries <==> k in s.entries) && (k in s.entries ==> t.entries[k] == s.entries[k]))
  {
  }
}

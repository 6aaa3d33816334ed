/**
 Bank import jobs: the row and its updates (packages/db/src/bank-jobs.ts), and the worker that drives
 them (apps/worker/src/jobs/bank-job.ts and bank-transfer.ts). Each transaction is one atomic step;
 a crash may fall between any two. Deliveries of one job do not overlap.
 */
module BankJobs {
  import opened Prelude

  const MAX_STORED_PROBLEMS := 1000
  const MAX_FAILURE_CHARS := 2000

  datatype Status = Queued | Dispatched | Running | Succeeded | Failed

  datatype Problem = Problem(index: nat, ref: Option<string>, path: string, message: string)

  datatype Row = Row(
    status: Status,
    hasInput: bool,
    nextIndex: nat,
    createdCount: nat,
    skippedCount: nat,
    problems: seq<Problem>,
    problemsTruncated: bool,
    failure: Option<string>,
    startedAt: Option<int>,
    finishedAt: Option<int>)

  // ---- The row updates ---------------------------------------------------------------------

  /** The longest prefix of `s` with at most `n` elements. */
  function Take<T>(s: seq<T>, n: nat): seq<T> {
    if |s| <= n then s else s[..n]
  }

  function Appended(row: Row, more: seq<Problem>): Row {
    row.(problems := if |row.problems| >= MAX_STORED_PROBLEMS then row.problems
                     else Take(row.problems + more, MAX_STORED_PROBLEMS),
         problemsTruncated := row.problemsTruncated || |row.problems| + |more| > MAX_STORED_PROBLEMS)
  }

  predicate Finished(row: Row) {
    row.status == Succeeded || row.status == Failed
  }

  function ClaimedRow(row: Row): Row {
    if row.status == Queued || row.status == Dispatched then row.(status := Dispatched) else row
  }

  function StartedRow(row: Row, at: int): Row {
    row.(status := Running, startedAt := if row.startedAt.Some? then row.startedAt else Some(at))
  }

  function SkippedBy(problems: seq<Problem>): nat {
    |set p | p in problems :: p.index|
  }

  function ParsedRow(row: Row, problems: seq<Problem>): Row {
    if problems == [] then row
    else Appended(row, problems).(skippedCount := row.skippedCount + SkippedBy(problems))
  }

  function AdvancedRow(row: Row, nextIndex: nat, created: bool, problems: seq<Problem>): Row {
    var counted := row.(nextIndex := nextIndex,
                        createdCount := row.createdCount + (if created then 1 else 0),
                        skippedCount := row.skippedCount + (if created then 0 else 1));
    if problems == [] then counted else Appended(counted, problems)
  }

  function FinishedRow(row: Row, at: int): Row {
    row.(status := Succeeded, finishedAt := Some(at), hasInput := false)
  }

  function FailedRow(row: Row, at: int, failure: string): Row {
    row.(status := Failed, finishedAt := Some(at), hasInput := false, failure := Some(Take(failure, MAX_FAILURE_CHARS)))
  }

  /** One row of `bank_jobs`. */
  class BankJob {
    var status: Status
    var hasInput: bool
    var nextIndex: nat
    var createdCount: nat
    var skippedCount: nat
    var problems: seq<Problem>
    var problemsTruncated: bool
    var failure: Option<string>
    var startedAt: Option<int>
    var finishedAt: Option<int>

    ghost function Snapshot(): Row
      reads this
    {
      Row(status, hasInput, nextIndex, createdCount, skippedCount,
          problems, problemsTruncated, failure, startedAt, finishedAt)
    }

    constructor ()
      ensures Snapshot() == QueuedRow()
    {
      status, hasInput := Queued, true;
      nextIndex, createdCount, skippedCount := 0, 0, 0;
      problems, problemsTruncated := [], false;
      failure, startedAt, finishedAt := None, None, None;
    }

    method StartBankJob(at: int) returns (started: bool)
      modifies this
      ensures started <==> !Finished(old(Snapshot()))
      ensures Snapshot() == if started then StartedRow(old(Snapshot()), at) else old(Snapshot())
    {
      if status != Queued && status != Dispatched && status != Running {
        return false;
      }
      status := Running;
      if startedAt.None? {
        startedAt := Some(at);
      }
      return true;
    }

    method AppendProblems(more: seq<Problem>)
      modifies this`problems, this`problemsTruncated
      ensures Snapshot() == Appended(old(Snapshot()), more)
    {
      problemsTruncated := problemsTruncated || |problems| + |more| > MAX_STORED_PROBLEMS;
      if |problems| < MAX_STORED_PROBLEMS {
        problems := Take(problems + more, MAX_STORED_PROBLEMS);
      }
    }

    method RecordParseProblems(more: seq<Problem>)
      modifies this
      ensures Snapshot() == ParsedRow(old(Snapshot()), more)
    {
      if more == [] {
        return;
      }
      AppendProblems(more);
      skippedCount := skippedCount + |set p | p in more :: p.index|;
    }

    method AdvanceImport(next: nat, created: bool, more: seq<Problem>)
      modifies this
      ensures Snapshot() == AdvancedRow(old(Snapshot()), next, created, more)
    {
      nextIndex := next;
      if created {
        createdCount := createdCount + 1;
      } else {
        skippedCount := skippedCount + 1;
      }
      if more != [] {
        AppendProblems(more);
      }
    }

    method FinishBankJob(at: int)
      modifies this
      ensures Snapshot() == FinishedRow(old(Snapshot()), at)
    {
      status, finishedAt, hasInput := Succeeded, Some(at), false;
    }

    method FailBankJob(at: int, message: string)
      modifies this
      ensures Snapshot() == FailedRow(old(Snapshot()), at, message)
    {
      status, finishedAt, hasInput := Failed, Some(at), false;
      failure := Some(Take(message, MAX_FAILURE_CHARS));
    }
  }

  // ---- The worker ----------------------------------------------------------------------------

  /** What reading the uploaded file yields, the same on every delivery. */
  datatype File = File(itemCount: nat, parseProblems: seq<Problem>)

  /** What became of an item: written, refused, or written by a commit whose answer was lost. */
  datatype ItemOutcome = Wrote | Refused(problem: Problem) | Unacknowledged(reported: Option<Problem>)

  datatype Worker =
    | Idle
    | Opened(job: Row)              // the row as startBankJob returned it
    | Importing(position: nat)
    | Reporting(position: nat)      // an item's transaction threw; its refusal is not recorded yet
    | Unwinding                     // an error is on its way out of the job

  /**
   The row, the worker, whether the present delivery is the last one the queue will make, the bank
   items written so far by position, and two history variables: whether the parse problems were
   recorded, and the outcome of each item before `next_index`.
   */
  datatype World = World(
    row: Row, worker: Worker, finalAttempt: bool, written: seq<nat>, recorded: bool, outcomes: seq<ItemOutcome>)

  datatype Step =
    | Claim
    | Deliver(at: int, finalAttempt: bool)
    | RejectFile(at: int, message: string)
    | RejectUnacknowledged(at: int, message: string)
    | RecordProblems
    | BeginItems
    | WriteItem
    | ItemThrows
    | CommitUnacknowledged
    | Report(problem: Problem)
    | Finish(at: int)
    | FinishUnacknowledged(at: int)
    | Error
    | FailFinal(at: int, message: string)
    | Crash

  function QueuedRow(): Row {
    Row(Queued, true, 0, 0, 0, [], false, None, None, None)
  }

  function Created(): World {
    World(QueuedRow(), Idle, false, [], false, [])
  }

  predicate FirstRun(job: Row) {
    job.nextIndex == 0 && job.createdCount == 0 && job.skippedCount == 0
  }

  predicate Enabled(f: File, w: World, step: Step) {
    match step
    case Claim => true
    case Deliver(_, _) => w.worker.Idle?
    case RejectFile(_, _) => w.worker.Opened?
    case RejectUnacknowledged(_, _) => w.worker.Opened?
    case RecordProblems => w.worker.Opened? && FirstRun(w.worker.job) && f.parseProblems != []
    case BeginItems => w.worker.Opened? && !(FirstRun(w.worker.job) && f.parseProblems != [])
    case WriteItem => w.worker.Importing? && w.worker.position < f.itemCount
    case ItemThrows => w.worker.Importing? && w.worker.position < f.itemCount
    case CommitUnacknowledged => w.worker.Importing? && w.worker.position < f.itemCount
    case Report(_) => w.worker.Reporting?
    case Finish(_) => w.worker.Importing? && w.worker.position >= f.itemCount
    case FinishUnacknowledged(_) => w.worker.Importing? && w.worker.position >= f.itemCount
    case Error => !w.worker.Idle?
    case FailFinal(_, _) => w.worker.Unwinding? && w.finalAttempt
    case Crash => true
  }

  function Next(f: File, w: World, step: Step): World
    requires Enabled(f, w, step)
  {
    match step
    case Claim => w.(row := ClaimedRow(w.row))
    case Deliver(at, finalAttempt) =>
      if Finished(w.row) then w
      else
        var row := StartedRow(w.row, at);
        w.(row := row, worker := Opened(row), finalAttempt := finalAttempt)
    case RejectFile(at, message) => w.(row := FailedRow(w.row, at, message), worker := Idle)
    case RejectUnacknowledged(at, message) => w.(row := FailedRow(w.row, at, message), worker := Unwinding)
    case RecordProblems =>
      w.(row := ParsedRow(w.row, f.parseProblems), recorded := true, worker := Importing(w.worker.job.nextIndex))
    case BeginItems => w.(worker := Importing(w.worker.job.nextIndex))
    case WriteItem =>
      var p := w.worker.position;
      w.(row := AdvancedRow(w.row, p + 1, true, []), worker := Importing(p + 1),
         written := w.written + [p], outcomes := w.outcomes + [Wrote])
    case ItemThrows => w.(worker := Reporting(w.worker.position))
    case CommitUnacknowledged =>
      var p := w.worker.position;
      w.(row := AdvancedRow(w.row, p + 1, true, []), worker := Reporting(p),
         written := w.written + [p], outcomes := w.outcomes + [Unacknowledged(None)])
    case Report(problem) =>
      var p := w.worker.position;
      var after := w.(row := AdvancedRow(w.row, p + 1, false, [problem]), worker := Importing(p + 1));
      if |w.outcomes| == p then after.(outcomes := w.outcomes + [Refused(problem)])
      else if |w.outcomes| == p + 1 then after.(outcomes := w.outcomes[p := Unacknowledged(Some(problem))])
      else after
    case Finish(at) => w.(row := FinishedRow(w.row, at), worker := Idle)
    case FinishUnacknowledged(at) => w.(row := FinishedRow(w.row, at), worker := Unwinding)
    case Error => w.(worker := Unwinding)
    case FailFinal(at, message) => w.(row := FailedRow(w.row, at, message), worker := Idle)
    case Crash => w.(worker := Idle)
  }

  ghost predicate Follows(f: File, w: World, w': World) {
    exists step :: Enabled(f, w, step) && w' == Next(f, w, step)
  }

  ghost predicate FollowsAt(f: File, run: seq<World>, i: nat) {
    i + 1 < |run| && Follows(f, run[i], run[i + 1])
  }

  ghost predicate IsRun(f: File, run: seq<World>) {
    && run != [] && run[0] == Created()
    && forall i: nat :: i + 1 < |run| ==> FollowsAt(f, run, i)
  }

  /** The step that made a state of a run. */
  lemma StepInto(f: File, run: seq<World>, i: nat) returns (step: Step)
    requires 0 < i < |run| && FollowsAt(f, run, i - 1)
    ensures Enabled(f, run[i - 1], step) && run[i] == Next(f, run[i - 1], step)
  {
    assert Follows(f, run[i - 1], run[i - 1 + 1]);
    step :| Enabled(f, run[i - 1], step) && run[i - 1 + 1] == Next(f, run[i - 1], step);
  }

  // ---- What the history says ------------------------------------------------------------------

  /** The positions whose items are in the bank. */
  function Accepted(outcomes: seq<ItemOutcome>): seq<nat> {
    if outcomes == [] then []
    else
      var n := |outcomes| - 1;
      Accepted(outcomes[..n]) + if outcomes[n].Refused? then [] else [n]
  }

  /** The problem an item's outcome put on the row, if any. */
  function ProblemOf(o: ItemOutcome): seq<Problem> {
    match o
    case Wrote => []
    case Refused(p) => [p]
    case Unacknowledged(r) => if r.Some? then [r.value] else []
  }

  function ItemProblems(outcomes: seq<ItemOutcome>): seq<Problem> {
    if outcomes == [] then []
    else ItemProblems(outcomes[..|outcomes| - 1]) + ProblemOf(outcomes[|outcomes| - 1])
  }

  /** Every problem ever reported to the row, in order. */
  function Reported(f: File, w: World): seq<Problem> {
    (if w.recorded then f.parseProblems else []) + ItemProblems(w.outcomes)
  }

  function ParseSkipped(f: File, w: World): nat {
    if w.recorded then SkippedBy(f.parseProblems) else 0
  }

  /** How many items are in the bank and were also reported as refused. */
  function Misreported(outcomes: seq<ItemOutcome>): nat {
    if outcomes == [] then 0
    else
      var last := outcomes[|outcomes| - 1];
      Misreported(outcomes[..|outcomes| - 1]) + if last.Unacknowledged? && last.reported.Some? then 1 else 0
  }

  // ---- The invariant ---------------------------------------------------------------------------

  predicate Working(w: Worker) {
    w.Opened? || w.Importing? || w.Reporting?
  }

  ghost predicate Located(f: File, w: World) {
    && w.row.nextIndex == |w.outcomes| <= f.itemCount
    && (Working(w.worker) ==> w.row.status == Running)
    && (w.worker.Opened? ==>
          && w.worker.job.nextIndex == w.row.nextIndex && w.worker.job.createdCount == w.row.createdCount
          && w.worker.job.skippedCount == w.row.skippedCount)
    && (w.worker.Importing? ==> w.worker.position == w.row.nextIndex)
    && (w.worker.Reporting? ==>
          var p := w.worker.position;
          p < f.itemCount
          && (w.row.nextIndex == p || (w.row.nextIndex == p + 1 && w.outcomes[p] == Unacknowledged(None))))
    && (w.row.status == Succeeded ==> w.row.nextIndex == f.itemCount)
  }

  ghost predicate Counted(f: File, w: World) {
    && w.written == Accepted(w.outcomes)
    && w.row.createdCount == |w.written|
    && w.row.skippedCount == ParseSkipped(f, w) + |ItemProblems(w.outcomes)|
  }

  ghost predicate ParsedOnce(f: File, w: World) {
    && (w.recorded ==> f.parseProblems != [])
    && (f.parseProblems != []
        && (w.outcomes != [] || w.worker.Importing? || w.worker.Reporting? || w.row.status == Succeeded) ==>
          w.recorded)
  }

  ghost predicate ProblemsKept(f: File, w: World) {
    && w.row.problems == Take(Reported(f, w), MAX_STORED_PROBLEMS)
    && (w.row.problemsTruncated <==> |Reported(f, w)| > MAX_STORED_PROBLEMS)
  }

  ghost predicate Inv(f: File, w: World) {
    Located(f, w) && Counted(f, w) && ParsedOnce(f, w) && ProblemsKept(f, w)
  }

  lemma SkippedByPositive(problems: seq<Problem>)
    requires problems != []
    ensures SkippedBy(problems) >= 1
  {
    var indices := set p | p in problems :: p.index;
    assert problems[0] in problems;
    assert problems[0].index in indices;
    assert indices != {};
  }

  /** How many problems are the first to name their index. */
  function FirstMentions(problems: seq<Problem>): nat {
    if problems == [] then 0
    else
      var n := |problems| - 1;
      FirstMentions(problems[..n]) + if exists j :: 0 <= j < n && problems[j].index == problems[n].index then 0 else 1
  }

  /** A refused item counts once, however many problems it has. */
  lemma {:induction false} SkippedIsFirstMentions(problems: seq<Problem>)
    ensures SkippedBy(problems) == FirstMentions(problems)
  {
    if problems != [] {
      var n := |problems| - 1;
      SkippedIsFirstMentions(problems[..n]);
      SkippedThen(problems[..n], problems[n]);
      assert problems == problems[..n] + [problems[n]];
    }
  }

  /** Another problem of an item already skipped leaves the count, any other raises it by one. */
  lemma SkippedThen(before: seq<Problem>, last: Problem)
    ensures SkippedBy(before + [last]) ==
            SkippedBy(before) + if exists j :: 0 <= j < |before| && before[j].index == last.index then 0 else 1
  {
    var a, b := Indices(before), Indices(before + [last]);
    assert forall p :: p in before + [last] <==> p in before || p == last;
    assert b == a + {last.index};
    MentionedIff(before, last.index);
  }

  function Indices(problems: seq<Problem>): set<nat> {
    set p | p in problems :: p.index
  }

  lemma MentionedIff(problems: seq<Problem>, index: nat)
    ensures index in Indices(problems) <==> exists j :: 0 <= j < |problems| && problems[j].index == index
  {
    if j :| 0 <= j < |problems| && problems[j].index == index {
      assert problems[j] in problems;
    }
  }

  lemma LocatedKept(f: File, w: World, step: Step)
    requires Located(f, w) && Enabled(f, w, step)
    ensures Located(f, Next(f, w, step))
  {
  }

  lemma ParsedOnceKept(f: File, w: World, step: Step)
    requires Inv(f, w) && Enabled(f, w, step)
    ensures ParsedOnce(f, Next(f, w, step))
    ensures step.RecordProblems? ==> !w.recorded && w.outcomes == []
  {
    if f.parseProblems != [] {
      SkippedByPositive(f.parseProblems);
    }
  }

  lemma Extended(outcomes: seq<ItemOutcome>, o: ItemOutcome)
    ensures Accepted(outcomes + [o]) == Accepted(outcomes) + if o.Refused? then [] else [|outcomes|]
    ensures ItemProblems(outcomes + [o]) == ItemProblems(outcomes) + ProblemOf(o)
    ensures Misreported(outcomes + [o]) ==
            Misreported(outcomes) + if o.Unacknowledged? && o.reported.Some? then 1 else 0
  {
    assert (outcomes + [o])[..|outcomes|] == outcomes;
  }

  lemma ReportedLate(outcomes: seq<ItemOutcome>, problem: Problem)
    requires outcomes != [] && outcomes[|outcomes| - 1] == Unacknowledged(None)
    ensures
      var late := outcomes[|outcomes| - 1 := Unacknowledged(Some(problem))];
      && Accepted(late) == Accepted(outcomes) && ItemProblems(late) == ItemProblems(outcomes) + [problem]
      && Misreported(late) == Misreported(outcomes) + 1
  {
    var n := |outcomes| - 1;
    var late := outcomes[n := Unacknowledged(Some(problem))];
    assert outcomes == outcomes[..n] + [outcomes[n]] && late == outcomes[..n] + [Unacknowledged(Some(problem))];
    Extended(outcomes[..n], outcomes[n]);
    Extended(outcomes[..n], Unacknowledged(Some(problem)));
  }

  /** Storing the first thousand of what was reported, then of what is reported next. */
  lemma AppendKeepsFirst(row: Row, reported: seq<Problem>, more: seq<Problem>)
    requires row.problems == Take(reported, MAX_STORED_PROBLEMS)
    requires row.problemsTruncated <==> |reported| > MAX_STORED_PROBLEMS
    ensures Appended(row, more).problems == Take(reported + more, MAX_STORED_PROBLEMS)
    ensures Appended(row, more).problemsTruncated <==> |reported + more| > MAX_STORED_PROBLEMS
  {
  }

  /** What a step adds to the history of reports. */
  lemma StepReports(f: File, w: World, step: Step)
    requires Located(f, w) && Enabled(f, w, step)
    requires step.RecordProblems? ==> !w.recorded && w.outcomes == []
    ensures Reported(f, Next(f, w, step)) == Reported(f, w) +
              (match step
               case RecordProblems => f.parseProblems
               case Report(problem) => [problem]
               case _ => [])
  {
    var after := Next(f, w, step);
    match step
    case Report(problem) =>
      ReportAdds(f, w, problem);
      ReportedThen(f, w, after, [problem]);
    case WriteItem =>
      Extended(w.outcomes, Wrote);
      ReportedThen(f, w, after, []);
    case CommitUnacknowledged =>
      Extended(w.outcomes, Unacknowledged(None));
      ReportedThen(f, w, after, []);
    case RecordProblems =>
    case _ => assert after.recorded == w.recorded && after.outcomes == w.outcomes;
  }

  lemma ReportedThen(f: File, w: World, after: World, more: seq<Problem>)
    requires after.recorded == w.recorded && ItemProblems(after.outcomes) == ItemProblems(w.outcomes) + more
    ensures Reported(f, after) == Reported(f, w) + more
  {
  }

  lemma ReportAdds(f: File, w: World, problem: Problem)
    requires Located(f, w) && Enabled(f, w, Report(problem))
    ensures ItemProblems(Next(f, w, Report(problem)).outcomes) == ItemProblems(w.outcomes) + [problem]
  {
    if |w.outcomes| == w.worker.position {
      Extended(w.outcomes, Refused(problem));
    } else {
      ReportedLate(w.outcomes, problem);
    }
  }

  lemma ProblemsStay(f: File, w: World, step: Step)
    requires Inv(f, w) && Enabled(f, w, step)
    ensures ProblemsKept(f, Next(f, w, step))
  {
    ParsedOnceKept(f, w, step);
    ReportsAreKept(f, w, step);
  }

  lemma ReportsAreKept(f: File, w: World, step: Step)
    requires Located(f, w) && ProblemsKept(f, w) && Enabled(f, w, step)
    requires step.RecordProblems? ==> !w.recorded && w.outcomes == []
    ensures ProblemsKept(f, Next(f, w, step))
  {
    StepReports(f, w, step);
    match step
    case RecordProblems => AppendKeepsFirst(w.row, Reported(f, w), f.parseProblems);
    case Report(problem) => AppendKeepsFirst(w.row, Reported(f, w), [problem]);
    case _ => assert Reported(f, w) + [] == Reported(f, w);
  }

  lemma ItemIsCounted(f: File, w: World, step: Step)
    requires Located(f, w) && Counted(f, w) && Enabled(f, w, step) && (step.WriteItem? || step.CommitUnacknowledged?)
    ensures Counted(f, Next(f, w, step))
  {
    Extended(w.outcomes, if step.WriteItem? then Wrote else Unacknowledged(None));
  }

  lemma ReportIsCounted(f: File, w: World, problem: Problem)
    requires Located(f, w) && Counted(f, w) && Enabled(f, w, Report(problem))
    ensures Counted(f, Next(f, w, Report(problem)))
  {
    ReportAdds(f, w, problem);
    ReportAccepts(f, w, problem);
  }

  lemma ReportAccepts(f: File, w: World, problem: Problem)
    requires Located(f, w) && Enabled(f, w, Report(problem))
    ensures Accepted(Next(f, w, Report(problem)).outcomes) == Accepted(w.outcomes)
  {
    if |w.outcomes| == w.worker.position {
      Extended(w.outcomes, Refused(problem));
    } else {
      ReportedLate(w.outcomes, problem);
    }
  }

  lemma RecordingIsCounted(f: File, w: World)
    requires Counted(f, w) && Enabled(f, w, RecordProblems) && !w.recorded
    ensures Counted(f, Next(f, w, RecordProblems))
  {
  }

  lemma CountsKept(f: File, w: World, step: Step)
    requires Located(f, w) && Counted(f, w) && Enabled(f, w, step) && (step.RecordProblems? ==> !w.recorded)
    ensures Counted(f, Next(f, w, step))
  {
    match step
    case WriteItem => ItemIsCounted(f, w, step);
    case CommitUnacknowledged => ItemIsCounted(f, w, step);
    case Report(problem) => ReportIsCounted(f, w, problem);
    case RecordProblems => RecordingIsCounted(f, w);
    case _ =>
  }

  lemma StepKeepsInv(f: File, w: World, step: Step)
    requires Inv(f, w) && Enabled(f, w, step)
    ensures Inv(f, Next(f, w, step))
  {
    LocatedKept(f, w, step);
    ParsedOnceKept(f, w, step);
    CountsKept(f, w, step);
    ProblemsStay(f, w, step);
  }

  lemma {:induction false} RunKeepsInv(f: File, run: seq<World>, i: nat)
    requires IsRun(f, run) && i < |run|
    ensures Inv(f, run[i])
  {
    if i > 0 {
      RunKeepsInv(f, run, i - 1);
      var step := StepInto(f, run, i);
      StepKeepsInv(f, run[i - 1], step);
    }
  }

  lemma RunIsLocated(f: File, run: seq<World>, i: nat)
    requires IsRun(f, run) && i < |run|
    ensures Located(f, run[i])
  {
    RunKeepsInv(f, run, i);
  }

  // ---- What every run guarantees -----------------------------------------------------------------

  lemma AcceptedIs(outcomes: seq<ItemOutcome>)
    ensures forall a, b :: 0 <= a < b < |Accepted(outcomes)| ==> Accepted(outcomes)[a] < Accepted(outcomes)[b]
    ensures forall p: nat :: p in Accepted(outcomes) <==> p < |outcomes| && !outcomes[p].Refused?
    ensures |Accepted(outcomes)| + |ItemProblems(outcomes)| == |outcomes| + Misreported(outcomes)
  {
    AcceptedPositions(outcomes);
    EveryItemCounted(outcomes);
  }

  lemma {:induction false} EveryItemCounted(outcomes: seq<ItemOutcome>)
    ensures |Accepted(outcomes)| + |ItemProblems(outcomes)| == |outcomes| + Misreported(outcomes)
  {
    if outcomes != [] {
      EveryItemCounted(outcomes[..|outcomes| - 1]);
    }
  }

  lemma {:induction false} AcceptedPositions(outcomes: seq<ItemOutcome>)
    ensures forall a, b :: 0 <= a < b < |Accepted(outcomes)| ==> Accepted(outcomes)[a] < Accepted(outcomes)[b]
    ensures forall p: nat :: p in Accepted(outcomes) <==> p < |outcomes| && !outcomes[p].Refused?
  {
    if outcomes != [] {
      var n := |outcomes| - 1;
      AcceptedPositions(outcomes[..n]);
      var before := Accepted(outcomes[..n]);
      forall a | 0 <= a < |before|
        ensures before[a] < n
      {
        assert before[a] in before;
      }
    }
  }

  /** Each item is written at most once, and exactly the accepted ones before the checkpoint are. */
  lemma WrittenAtMostOnce(f: File, run: seq<World>, i: nat)
    requires IsRun(f, run) && i < |run|
    ensures forall a, b :: 0 <= a < b < |run[i].written| ==> run[i].written[a] < run[i].written[b]
    ensures forall p: nat ::
              p in run[i].written <==> p < run[i].row.nextIndex && p < |run[i].outcomes| && !run[i].outcomes[p].Refused?
    ensures |run[i].outcomes| == run[i].row.nextIndex <= f.itemCount
  {
    RunKeepsInv(f, run, i);
    AcceptedIs(run[i].outcomes);
  }

  /**
   The counters account for every item before the checkpoint, once; an item written by a commit whose
   answer was lost, and then reported as refused, is counted twice, and nothing else is.
   */
  lemma CountersBalance(f: File, run: seq<World>, i: nat)
    requires IsRun(f, run) && i < |run|
    ensures run[i].row.createdCount == |run[i].written|
    ensures
      var parsed := if run[i].recorded then FirstMentions(f.parseProblems) else 0;
      run[i].row.createdCount + run[i].row.skippedCount - parsed == run[i].row.nextIndex + Misreported(run[i].outcomes)
    ensures
      var parsed := if run[i].recorded then FirstMentions(f.parseProblems) else 0;
      run[i].row.createdCount + run[i].row.skippedCount - parsed == run[i].row.nextIndex
      <==> forall p :: 0 <= p < |run[i].outcomes| && run[i].outcomes[p].Unacknowledged? ==>
             run[i].outcomes[p].reported.None?
  {
    RunKeepsInv(f, run, i);
    AcceptedIs(run[i].outcomes);
    MisreportedZero(run[i].outcomes);
    SkippedIsFirstMentions(f.parseProblems);
  }

  /** The smallest run in which the counters overrun the checkpoint: one item, one lost answer. */
  lemma LostAnswerCountsTwice(problem: Problem) returns (f: File, run: seq<World>)
    ensures IsRun(f, run)
    ensures
      var last := run[|run| - 1];
      last.row.nextIndex == 1 && last.row.createdCount + last.row.skippedCount - ParseSkipped(f, last) == 2
  {
    f := File(1, []);
    var a := Next(f, Created(), Deliver(0, true));
    var b := Next(f, a, BeginItems);
    var c := Next(f, b, CommitUnacknowledged);
    var d := Next(f, c, Report(problem));
    run := [Created(), a, b, c, d];
    assert Follows(f, run[0], run[1]) && Follows(f, run[1], run[2]) && Follows(f, run[2], run[3])
           && Follows(f, run[3], run[4]);
  }

  lemma {:induction false} MisreportedZero(outcomes: seq<ItemOutcome>)
    ensures Misreported(outcomes) == 0
       <==> forall p :: 0 <= p < |outcomes| && outcomes[p].Unacknowledged? ==> outcomes[p].reported.None?
  {
    if outcomes != [] {
      MisreportedZero(outcomes[..|outcomes| - 1]);
    }
  }

  /** The row keeps the first thousand reports in order, and says so when there were more. */
  lemma FirstThousandProblems(f: File, run: seq<World>, i: nat)
    requires IsRun(f, run) && i < |run|
    ensures run[i].row.problems <= Reported(f, run[i])
    ensures |Reported(f, run[i])| <= 1000 ==>
            run[i].row.problems == Reported(f, run[i]) && !run[i].row.problemsTruncated
    ensures |Reported(f, run[i])| > 1000 ==> |run[i].row.problems| == 1000 && run[i].row.problemsTruncated
  {
    RunKeepsInv(f, run, i);
  }

  /** Once finished, a job stays finished, and no later delivery touches the bank or its counters. */
  lemma {:induction false} FinishedIsFinal(f: File, run: seq<World>, i: nat, j: nat)
    requires IsRun(f, run) && i <= j < |run| && Finished(run[i].row)
    ensures Finished(run[j].row) && run[j].written == run[i].written && run[j].outcomes == run[i].outcomes
    ensures run[j].row.nextIndex == run[i].row.nextIndex && run[j].row.createdCount == run[i].row.createdCount
    ensures run[j].row.skippedCount == run[i].row.skippedCount && run[j].row.problems == run[i].row.problems
    decreases j
  {
    if i < j {
      FinishedIsFinal(f, run, i, j - 1);
      RunIsLocated(f, run, j - 1);
      var step := StepInto(f, run, j);
      FinishedStep(f, run[j - 1], step);
    }
  }

  lemma FinishedStep(f: File, w: World, step: Step)
    requires Located(f, w) && Finished(w.row) && Enabled(f, w, step)
    ensures
      var after := Next(f, w, step);
      && Finished(after.row) && after.written == w.written && after.outcomes == w.outcomes
      && after.row.nextIndex == w.row.nextIndex && after.row.createdCount == w.row.createdCount
      && after.row.skippedCount == w.row.skippedCount && after.row.problems == w.row.problems
  {
  }

  /** A continuation of a run: one step after another from a given state. */
  ghost predicate Continues(f: File, w: World, later: seq<World>) {
    && later != [] && later[0] == w
    && forall i: nat :: i + 1 < |later| ==> FollowsAt(f, later, i)
  }

  ghost predicate StaysSucceeded(f: File, w: World) {
    forall later: seq<World> :: Continues(f, w, later) ==> later[|later| - 1].row.status == Succeeded
  }

  /** `failBankJob` has no status guard: a finish whose answer was lost can still be marked failed. */
  lemma LostFinishFails(message: string) returns (f: File, run: seq<World>)
    ensures IsRun(f, run) && |run| == 5
    ensures run[3].row.status == Succeeded && run[4].row.status == Failed
  {
    f := File(0, []);
    var a := Next(f, Created(), Deliver(0, true));
    var b := Next(f, a, BeginItems);
    var c := Next(f, b, FinishUnacknowledged(0));
    var d := Next(f, c, FailFinal(0, message));
    run := [Created(), a, b, c, d];
    assert Follows(f, run[0], run[1]) && Follows(f, run[1], run[2]) && Follows(f, run[2], run[3])
           && Follows(f, run[3], run[4]);
  }

  /** The branch that marks a succeeded job failed: an error unwinding on the final attempt. */
  predicate FailsNext(w: World) {
    w.worker.Unwinding? && w.finalAttempt
  }

  ghost predicate Settled(f: File, w: World) {
    Located(f, w) && w.row.status == Succeeded && !FailsNext(w)
  }

  lemma SettledStep(f: File, w: World, step: Step)
    requires Settled(f, w) && Enabled(f, w, step)
    ensures Settled(f, Next(f, w, step))
  {
    LocatedKept(f, w, step);
  }

  lemma {:induction false} SettledStays(f: File, w: World, later: seq<World>, i: nat)
    requires Continues(f, w, later) && Settled(f, w) && i < |later|
    ensures Settled(f, later[i])
  {
    if i > 0 {
      SettledStays(f, w, later, i - 1);
      var step := StepInto(f, later, i);
      SettledStep(f, later[i - 1], step);
    }
  }

  /**
   A succeeded job stays succeeded, whatever follows, exactly when no error is on its way out of the
   final attempt's worker.
   */
  lemma SucceededStaysIff(f: File, run: seq<World>, i: nat)
    requires IsRun(f, run) && i < |run| && run[i].row.status == Succeeded
    ensures StaysSucceeded(f, run[i]) <==> !(run[i].worker.Unwinding? && run[i].finalAttempt)
  {
    RunIsLocated(f, run, i);
    var w := run[i];
    if FailsNext(w) {
      var failed := Next(f, w, FailFinal(0, ""));
      assert Follows(f, w, failed);
      assert Continues(f, w, [w, failed]);
    } else {
      forall later: seq<World> | Continues(f, w, later)
        ensures later[|later| - 1].row.status == Succeeded
      {
        SettledStays(f, w, later, |later| - 1);
      }
    }
  }

  /** A failed job is never marked succeeded. */
  lemma {:induction false} FailedStays(f: File, run: seq<World>, i: nat, j: nat)
    requires IsRun(f, run) && i <= j < |run| && run[i].row.status == Failed
    ensures run[j].row.status == Failed
    decreases j
  {
    if i < j {
      FailedStays(f, run, i, j - 1);
      RunIsLocated(f, run, j - 1);
      var step := StepInto(f, run, j);
      FailedStep(f, run[j - 1], step);
    }
  }

  lemma FailedStep(f: File, w: World, step: Step)
    requires Located(f, w) && w.row.status == Failed && Enabled(f, w, step)
    ensures Next(f, w, step).row.status == Failed
  {
  }

  /** A job that succeeded has decided every item of its file, and recorded its parse problems. */
  lemma SucceededIsComplete(f: File, run: seq<World>, i: nat)
    requires IsRun(f, run) && i < |run| && run[i].row.status == Succeeded
    ensures |run[i].outcomes| == f.itemCount && (run[i].recorded <==> f.parseProblems != [])
    ensures forall p: nat :: p in run[i].written <==> p < f.itemCount && !run[i].outcomes[p].Refused?
  {
    RunKeepsInv(f, run, i);
    AcceptedIs(run[i].outcomes);
  }

  // ---- What the row says of its own life ---------------------------------------------------------

  /** The row's stamps agree with its status. */
  ghost predicate Stamped(row: Row) {
    && (row.hasInput <==> !Finished(row))
    && (row.finishedAt.Some? <==> Finished(row))
    && (row.failure.Some? <==> row.status == Failed)
    && (row.failure.Some? ==> |row.failure.value| <= MAX_FAILURE_CHARS)
    && (row.startedAt.None? <==> row.status == Queued || row.status == Dispatched)
  }

  lemma StampsKept(f: File, w: World, step: Step)
    requires Located(f, w) && Stamped(w.row) && (w.worker.Unwinding? ==> w.row.startedAt.Some?) && Enabled(f, w, step)
    ensures
      var after := Next(f, w, step);
      Stamped(after.row) && (after.worker.Unwinding? ==> after.row.startedAt.Some?)
    ensures w.row.startedAt.Some? ==> Next(f, w, step).row.startedAt == w.row.startedAt
  {
  }

  /**
   In every run the file is kept exactly until the job finishes, the failure is there exactly when it
   failed, and the stamps match.
   */
  lemma {:induction false} RowIsStamped(f: File, run: seq<World>, i: nat)
    requires IsRun(f, run) && i < |run|
    ensures Stamped(run[i].row) && (run[i].worker.Unwinding? ==> run[i].row.startedAt.Some?)
  {
    if i > 0 {
      RowIsStamped(f, run, i - 1);
      RunIsLocated(f, run, i - 1);
      var step := StepInto(f, run, i);
      StampsKept(f, run[i - 1], step);
    }
  }

  /** The first start is stamped once: redeliveries do not move it. */
  lemma {:induction false} StartedOnce(f: File, run: seq<World>, i: nat, j: nat)
    requires IsRun(f, run) && i <= j < |run| && run[i].row.startedAt.Some?
    ensures run[j].row.startedAt == run[i].row.startedAt
    decreases j
  {
    if i < j {
      StartedOnce(f, run, i, j - 1);
      RowIsStamped(f, run, j - 1);
      RunIsLocated(f, run, j - 1);
      var step := StepInto(f, run, j);
      StampsKept(f, run[j - 1], step);
    }
  }

  /** A failed job says why, as far as the message fits, and when. */
  lemma FailureIsReported(f: File, w: World, at: int, message: string, step: Step)
    requires Enabled(f, w, step)
    requires step in [RejectFile(at, message), RejectUnacknowledged(at, message), FailFinal(at, message)]
    ensures
      var row := Next(f, w, step).row;
      && row.status == Failed && row.finishedAt == Some(at) && row.failure.Some? && row.failure.value <= message
      && (|message| <= 2000 ==> row.failure.value == message) && (|message| > 2000 ==> |row.failure.value| == 2000)
  {
  }

  /** A claim hands out work that has not started, and leaves every other row alone. */
  lemma ClaimDispatches(f: File, w: World)
    ensures
      var after := Next(f, w, Claim);
      after == w.(row := w.row.(status := after.row.status))
      && (w.row.status == Queued || w.row.status == Dispatched ==> after.row.status == Dispatched)
      && (w.row.status != Queued && w.row.status != Dispatched ==> after.row.status == w.row.status)
  {
  }

  /**
   A delivery of an unfinished job starts it, from its checkpoint, and knows whether it is the last; a
   finished one is left alone.
   */
  lemma DeliveryStarts(f: File, w: World, at: int, finalAttempt: bool)
    requires Enabled(f, w, Deliver(at, finalAttempt))
    ensures
      var after := Next(f, w, Deliver(at, finalAttempt));
      && (Finished(w.row) ==> after == w)
      && (!Finished(w.row) ==>
            && after.row.status == Running && after.finalAttempt == finalAttempt && after.worker == Opened(after.row)
            && after.row == w.row.(status := Running, startedAt := after.row.startedAt)
            && after.row.startedAt == (if w.row.startedAt.None? then Some(at) else w.row.startedAt))
  {
  }
}

/** The attempt lifecycle (packages/core-domain/src/attempt-state.ts): its edge table and its events. */
module AttemptState {
  import opened Prelude

  datatype Status =
    | Created | InProgress | Submitted | Expired | AutoGraded | UnderReview | Finalised | Voided

  datatype Event =
    | Start | Submit | Expire | GradeComplete(needsHumanReview: bool) | ReviewComplete | Void(reason: string)

  datatype TransitionError = VoidReasonRequired | AlreadyVoided | IllegalTransition

  function Edges(from: Status): seq<Status> {
    match from
    case Created => [InProgress, Voided]
    case InProgress => [Submitted, Expired, Voided]
    case Submitted => [AutoGraded, Voided]
    case Expired => [AutoGraded, Voided]
    case AutoGraded => [UnderReview, Finalised, Voided]
    case UnderReview => [Finalised, Voided]
    case Finalised => [Voided]
    case Voided => []
  }

  predicate CanTransition(from: Status, to: Status) {
    to in Edges(from)
  }

  predicate IsTerminalStatus(status: Status) {
    |Edges(status)| == 0
  }

  predicate IsBlank(s: string) {
    forall i :: 0 <= i < |s| ==> IsWhitespace(s[i])
  }

  function Transition(from: Status, ev: Event): Result<Status, TransitionError> {
    match ev
    case Void(reason) =>
      if IsBlank(reason) then Err(VoidReasonRequired)
      else if from == Voided then Err(AlreadyVoided)
      else Ok(Voided)
    case Start => if from == Created then Ok(InProgress) else Err(IllegalTransition)
    case Submit => if from == InProgress then Ok(Submitted) else Err(IllegalTransition)
    case Expire => if from == InProgress then Ok(Expired) else Err(IllegalTransition)
    case GradeComplete(needsHumanReview) =>
      if from == Submitted || from == Expired then Ok(AutoGraded)
      else if from == AutoGraded then Ok(if needsHumanReview then UnderReview else Finalised)
      else Err(IllegalTransition)
    case ReviewComplete => if from == UnderReview then Ok(Finalised) else Err(IllegalTransition)
  }

  /** The edge table and the event handler describe one graph. */
  lemma EdgesAreEvents(from: Status, to: Status)
    ensures CanTransition(from, to) <==> exists ev :: Transition(from, ev) == Ok(to)
  {
    if CanTransition(from, to) {
      var ev := match to
        case InProgress => Start
        case Submitted => Submit
        case Expired => Expire
        case AutoGraded => GradeComplete(false)
        case UnderReview => GradeComplete(true)
        case Finalised => if from == AutoGraded then GradeComplete(false) else ReviewComplete
        case _ => Void("x");
      assert !IsBlank("x") by {
        assert !IsWhitespace("x"[0]);
      }
      assert Transition(from, ev) == Ok(to);
    }
  }

  /** A state no event can leave is exactly one the table gives no edge. */
  lemma TerminalIsStuck(s: Status)
    ensures IsTerminalStatus(s) <==> forall ev :: Transition(s, ev).Err?
  {
    if !IsTerminalStatus(s) {
      EdgesAreEvents(s, Edges(s)[0]);
    } else {
      forall ev
        ensures Transition(s, ev).Err?
      {
      }
    }
  }

  // ---- Runs --------------------------------------------------------------------------------

  /** The statuses a run of events visits: a refused event leaves the attempt where it was. */
  function Visited(from: Status, events: seq<Event>): (path: seq<Status>)
    ensures path != [] && path[0] == from
    decreases events
  {
    if events == [] then [from]
    else
      match Transition(from, events[0])
      case Err(_) => Visited(from, events[1..])
      case Ok(next) => [from] + Visited(next, events[1..])
  }

  function Rank(s: Status): nat {
    match s
    case Created => 0
    case InProgress => 1
    case Submitted => 2
    case Expired => 2
    case AutoGraded => 3
    case UnderReview => 4
    case Finalised => 5
    case Voided => 6
  }

  /** Every accepted event moves forward along an edge, so at most six are ever accepted. */
  lemma {:induction false} RunsMoveForward(from: Status, events: seq<Event>)
    ensures forall i :: 0 <= i < |Visited(from, events)| - 1 ==>
              CanTransition(Visited(from, events)[i], Visited(from, events)[i + 1])
    ensures forall i, j :: 0 <= i < j < |Visited(from, events)| ==>
              Rank(Visited(from, events)[i]) < Rank(Visited(from, events)[j])
    ensures |Visited(from, events)| - 1 <= 6 - Rank(from)
    decreases events
  {
    if events != [] {
      match Transition(from, events[0])
      case Err(_) =>
        RunsMoveForward(from, events[1..]);
      case Ok(next) =>
        RunsMoveForward(next, events[1..]);
        EdgesAreEvents(from, next);
        var path, rest := Visited(from, events), Visited(next, events[1..]);
        assert forall i :: 1 <= i < |path| ==> path[i] == rest[i - 1];
    }
  }

  /** Voiding is final: nothing follows it on any path. */
  lemma VoidedIsAbsorbing(from: Status, events: seq<Event>, i: nat)
    requires i < |Visited(from, events)| && Visited(from, events)[i] == Voided
    ensures i == |Visited(from, events)| - 1
  {
    RunsMoveForward(from, events);
    assert i < |Visited(from, events)| - 1 ==> CanTransition(Voided, Visited(from, events)[i + 1]);
  }

  /** Before an attempt is finalised, each move follows an edge, and none of them voids it. */
  lemma MoveAt(events: seq<Event>, k: nat, i: nat)
    requires k < i < |Visited(Created, events)| && Visited(Created, events)[i] == Finalised
    ensures CanTransition(Visited(Created, events)[k], Visited(Created, events)[k + 1])
    ensures Visited(Created, events)[k + 1] != Voided
  {
    RunsMoveForward(Created, events);
    if Visited(Created, events)[k + 1] == Voided {
      VoidedIsAbsorbing(Created, events, k + 1);
    }
  }

  function GradedPath(closed: Status, reviewed: bool): seq<Status> {
    [Created, InProgress, closed, AutoGraded] + (if reviewed then [UnderReview] else []) + [Finalised]
  }

  /**
   A finalised attempt was started, closed in exactly one way, and graded: its path up to there is
   one of four.
   */
  lemma FinalisedWasGraded(events: seq<Event>, i: nat)
    requires i < |Visited(Created, events)| && Visited(Created, events)[i] == Finalised
    ensures Visited(Created, events)[..i + 1] in
              {GradedPath(Submitted, false), GradedPath(Submitted, true),
               GradedPath(Expired, false), GradedPath(Expired, true)}
  {
    var path := Visited(Created, events);
    MoveAt(events, 0, i);
    assert path[1] == InProgress;
    MoveAt(events, 1, i);
    assert path[2] in {Submitted, Expired};
    MoveAt(events, 2, i);
    assert path[3] == AutoGraded;
    MoveAt(events, 3, i);
    assert path[4] in {UnderReview, Finalised};
    if i > 4 {
      MoveAt(events, 4, i);
      assert path[5] == Finalised;
      RunsMoveForward(Created, events);
    }
    assert path[..i + 1] == GradedPath(path[2], i > 4);
  }

  // ---- Which event makes which move ----------------------------------------------------------

  /** The events that take one status to another, edge by edge. */
  ghost predicate Causes(ev: Event, from: Status, to: Status) {
    match to
    case Created => false
    case InProgress => from == Created && ev == Start
    case Submitted => from == InProgress && ev == Submit
    case Expired => from == InProgress && ev == Expire
    case AutoGraded => (from == Submitted || from == Expired) && ev.GradeComplete?
    case UnderReview => from == AutoGraded && ev == GradeComplete(true)
    case Finalised =>
      (from == AutoGraded && ev == GradeComplete(false)) || (from == UnderReview && ev == ReviewComplete)
    case Voided => from != Voided && ev.Void? && exists i :: 0 <= i < |ev.reason| && !IsWhitespace(ev.reason[i])
  }

  /** Each edge is taken by exactly the events that stand for it; every refusal says why. */
  lemma EventsOfEdge(from: Status, ev: Event, to: Status)
    ensures Transition(from, ev) == Ok(to) <==> Causes(ev, from, to)
    ensures Transition(from, ev) == Err(VoidReasonRequired) <==>
              ev.Void? && forall i :: 0 <= i < |ev.reason| ==> IsWhitespace(ev.reason[i])
    ensures Transition(from, ev) == Err(AlreadyVoided) <==>
              from == Voided && ev.Void? && exists i :: 0 <= i < |ev.reason| && !IsWhitespace(ev.reason[i])
    ensures Transition(from, ev) == Err(IllegalTransition) <==> !ev.Void? && forall s :: !Causes(ev, from, s)
  {
    if !ev.Void? && Transition(from, ev).Ok? {
      assert Causes(ev, from, Transition(from, ev).value);
    }
  }

  /** The accepted events of a run, in order. */
  function AcceptedEvents(from: Status, events: seq<Event>): seq<Event>
    decreases events
  {
    if events == [] then []
    else
      match Transition(from, events[0])
      case Err(_) => AcceptedEvents(from, events[1..])
      case Ok(next) => [events[0]] + AcceptedEvents(next, events[1..])
  }

  /** Every move of a run was caused by an accepted event of the run that stands for that edge. */
  lemma {:induction false} MovesHaveCauses(from: Status, events: seq<Event>)
    ensures |Visited(from, events)| == |AcceptedEvents(from, events)| + 1
    ensures forall k :: 0 <= k < |AcceptedEvents(from, events)| ==>
              Causes(AcceptedEvents(from, events)[k], Visited(from, events)[k], Visited(from, events)[k + 1])
    ensures forall ev :: ev in AcceptedEvents(from, events) ==> ev in events
    decreases events
  {
    if events != [] {
      var rest := events[1..];
      match Transition(from, events[0])
      case Err(_) => MovesHaveCauses(from, rest);
      case Ok(next) =>
        MovesHaveCauses(next, rest);
        EventsOfEdge(from, events[0], next);
        var path, tail, accepted := Visited(from, events), Visited(next, rest), AcceptedEvents(from, events);
        forall k | 0 <= k < |accepted|
          ensures Causes(accepted[k], path[k], path[k + 1])
        {
          if k > 0 {
            assert path[k] == tail[k - 1] && path[k + 1] == tail[k] && accepted[k] == AcceptedEvents(next, rest)[k - 1];
          }
        }
    }
  }

  /**
   In every run from `created`: an attempt is submitted or expired only by that event, goes to review
   only when grading asked for it, is finalised only by grading that did not or by the review's end,
   and is voided only for a reason.
   */
  lemma StatusesAreEarned(events: seq<Event>, i: nat)
    requires 0 < i < |Visited(Created, events)|
    ensures
      var path := Visited(Created, events);
      && (path[i] == Submitted ==> Submit in events)
      && (path[i] == Expired ==> Expire in events)
      && (path[i] == UnderReview ==> GradeComplete(true) in events)
      && (path[i] == Finalised && path[i - 1] == AutoGraded ==> GradeComplete(false) in events)
      && (path[i] == Finalised && path[i - 1] != AutoGraded ==>
           GradeComplete(true) in events && ReviewComplete in events)
      && (path[i] == Voided ==> exists ev :: ev in events && ev.Void? && !IsBlank(ev.reason))
  {
    var path, accepted := Visited(Created, events), AcceptedEvents(Created, events);
    MovesHaveCauses(Created, events);
    var ev := accepted[i - 1];
    assert Causes(ev, path[i - 1], path[i - 1 + 1]) && ev in events;
    if path[i] == Finalised && path[i - 1] != AutoGraded {
      assert i >= 2;
      assert Causes(accepted[i - 2], path[i - 2], path[i - 2 + 1]) && accepted[i - 2] in events;
    }
  }
}

/**
 The per-skill roll-up (packages/core-domain/src/skill-scores.ts and round.ts), on exact rationals.
 */
module SkillScores {
  import opened Prelude
  import opened Shuffle

  datatype RangeError = MaxScoreOutOfRange | ScoreOutOfRange | WeightOutOfRange | NotFinite

  // ---- Rounding ------------------------------------------------------------------------------

  const SCALE := 1_000_000

  /** Millionths, nearest first and the larger on a tie. */
  function Millionths(x: real): int {
    (x * SCALE as real + 0.5).Floor
  }

  /** `Number(value.toFixed(6))` (section 21.1.3.3 of ECMA-262): a huge value prints in full. */
  function ToFixed(x: real): real {
    if x < 0.0 then (if -x < 1e21 then -(Millionths(-x) as real / SCALE as real) else x)
    else if x < 1e21 then Millionths(x) as real / SCALE as real
    else x
  }

  function RoundProportion(value: Num): Result<real, RangeError> {
    if value.Finite? then Ok(ToFixed(value.v)) else Err(NotFinite)
  }

  function Distance(a: real, b: real): real {
    if a < b then b - a else a - b
  }

  /** No multiple of a millionth is nearer, and of two equally near ones the larger is taken. */
  lemma RoundsToNearest(x: real, n: int)
    requires 0.0 <= x < 1e21
    ensures Distance(ToFixed(x), x) <= Distance(n as real / SCALE as real, x)
    ensures Distance(ToFixed(x), x) == Distance(n as real / SCALE as real, x) ==>
            n as real / SCALE as real <= ToFixed(x)
  {
    var y, m := x * 1e6, Millionths(x);
    assert m as real <= y + 0.5 < m as real + 1.0;
    assert n <= m || n >= m + 1;
  }

  lemma RoundingIsMonotone(x: real, y: real)
    requires 0.0 <= x <= y < 1e21
    ensures ToFixed(x) <= ToFixed(y)
  {
    assert Millionths(x) <= Millionths(y);
  }

  // ---- The roll-up -----------------------------------------------------------------------------

  datatype QuestionSkillScore = QuestionSkillScore(skillIds: seq<string>, score: Num, maxScore: Num)

  type SkillWeights = map<string, Num>

  predicate InRange(v: Num, min: real, max: Option<real>) {
    v.Finite? && v.v >= min && (max.Some? ==> v.v <= max.value)
  }

  function WeightOf(weights: SkillWeights, skill: string): Num {
    if skill in weights then weights[skill] else Finite(1.0)
  }

  predicate GoodMarks(q: QuestionSkillScore) {
    InRange(q.maxScore, 0.0, None) && InRange(q.score, 0.0, Some(q.maxScore.v))
  }

  predicate GoodWeight(weights: SkillWeights, skill: string) {
    InRange(WeightOf(weights, skill), 0.0, None)
  }

  predicate GoodQuestion(q: QuestionSkillScore, weights: SkillWeights) {
    GoodMarks(q) && forall i :: 0 <= i < |q.skillIds| ==> GoodWeight(weights, q.skillIds[i])
  }

  predicate WellFormed(qs: seq<QuestionSkillScore>, weights: SkillWeights) {
    forall i :: 0 <= i < |qs| ==> GoodQuestion(qs[i], weights)
  }

  /** What is wrong with a question: its maximum, else its score, else the weight of one of its skills. */
  ghost predicate Faults(q: QuestionSkillScore, weights: SkillWeights, error: RangeError) {
    match error
    case MaxScoreOutOfRange => !InRange(q.maxScore, 0.0, None)
    case ScoreOutOfRange => InRange(q.maxScore, 0.0, None) && !InRange(q.score, 0.0, Some(q.maxScore.v))
    case WeightOutOfRange => GoodMarks(q) && exists i :: 0 <= i < |q.skillIds| && !GoodWeight(weights, q.skillIds[i])
    case NotFinite => false
  }

  /** The sum of some mark over the questions. */
  function Total(qs: seq<QuestionSkillScore>, mark: QuestionSkillScore -> real): real {
    if qs == [] then 0.0 else Total(qs[..|qs| - 1], mark) + mark(qs[|qs| - 1])
  }

  function ScoreOn(skill: string): QuestionSkillScore -> real {
    (q: QuestionSkillScore) => if skill in q.skillIds && q.score.Finite? then q.score.v else 0.0
  }

  function MaxOn(skill: string): QuestionSkillScore -> real {
    (q: QuestionSkillScore) => if skill in q.skillIds && q.maxScore.Finite? then q.maxScore.v else 0.0
  }

  /** Marks earned on the questions tagged with a skill. */
  function Scored(qs: seq<QuestionSkillScore>, skill: string): real {
    Total(qs, ScoreOn(skill))
  }

  /** Marks available on the questions tagged with a skill. */
  function Available(qs: seq<QuestionSkillScore>, skill: string): real {
    Total(qs, MaxOn(skill))
  }

  function Tags(q: QuestionSkillScore): set<string> {
    set s | s in q.skillIds
  }

  function Tagged(qs: seq<QuestionSkillScore>): set<string> {
    set i, s | 0 <= i < |qs| && s in qs[i].skillIds :: s
  }

  /** What a skill's proportion is: the plain ratio of its marks. No weight appears in it. */
  function Proportion(qs: seq<QuestionSkillScore>, skill: string): real {
    if Available(qs, skill) > 0.0 then ToFixed(Scored(qs, skill) / Available(qs, skill)) else 0.0
  }

  predicate Assessed(qs: seq<QuestionSkillScore>, weights: SkillWeights, skill: string) {
    WeightOf(weights, skill) != Finite(0.0) && Available(qs, skill) > 0.0
  }

  /** The report: every assessed skill with its proportion. */
  function RolledUp(qs: seq<QuestionSkillScore>, weights: SkillWeights): Marks {
    map s | s in Tagged(qs) && Assessed(qs, weights, s) :: Proportion(qs, s)
  }

  type Marks = map<string, real>

  function MarkOf(m: Marks, skill: string): real {
    if skill in m then m[skill] else 0.0
  }

  // ---- The loops -------------------------------------------------------------------------------

  /** What one question's mark adds to a skill. */
  function Amount(weights: SkillWeights, skill: string, mark: Num): real {
    if WeightOf(weights, skill).Finite? && mark.Finite? then WeightOf(weights, skill).v * mark.v else 0.0
  }

  function Amounts(weights: SkillWeights, mark: Num): string -> real {
    (skill: string) => Amount(weights, skill, mark)
  }

  function EarnedOn(weights: SkillWeights, skill: string): QuestionSkillScore -> real {
    (q: QuestionSkillScore) => if skill in q.skillIds then Amounts(weights, q.score)(skill) else 0.0
  }

  function AvailableOn(weights: SkillWeights, skill: string): QuestionSkillScore -> real {
    (q: QuestionSkillScore) => if skill in q.skillIds then Amounts(weights, q.maxScore)(skill) else 0.0
  }

  /** `m` is `m0` with an amount added for each skill in `done`. */
  ghost predicate Added(m0: Marks, m: Marks, done: set<string>, amount: string -> real) {
    && m.Keys == m0.Keys + done
    && (forall s :: s in done ==> m[s] == MarkOf(m0, s) + amount(s))
    && (forall s :: s in m0 && s !in done ==> m[s] == m0[s])
  }

  lemma AddedStep(m0: Marks, m: Marks, done: set<string>, amount: string -> real, skill: string)
    requires Added(m0, m, done, amount) && skill !in done
    ensures Added(m0, m[skill := MarkOf(m, skill) + amount(skill)], done + {skill}, amount)
  {
  }

  function Bumped(m: Marks, skill: string, amount: real): Marks {
    m[skill := MarkOf(m, skill) + amount]
  }

  /** The inner loop: one question's marks go to each of its distinct skills. */
  method AddMarks(
      skills: set<string>, good: string -> bool, earn: string -> real, avail: string -> real,
      earned0: Marks, available0: Marks)
      returns (ok: bool, earned: Marks, available: Marks)
    ensures ok <==> forall s :: s in skills ==> good(s)
    ensures ok ==> Added(earned0, earned, skills, earn) && Added(available0, available, skills, avail)
  {
    earned, available := earned0, available0;
    var rest := skills;
    while rest != {}
      invariant rest <= skills && forall s :: s in skills - rest ==> good(s)
      invariant Added(earned0, earned, skills - rest, earn)
      invariant Added(available0, available, skills - rest, avail)
      decreases |rest|
    {
      var skill :| skill in rest;
      if !good(skill) {
        return false, earned, available;
      }
      AddedNext(earned0, earned, skills, rest, earn, skill);
      AddedNext(available0, available, skills, rest, avail, skill);
      earned := Bumped(earned, skill, earn(skill));
      available := Bumped(available, skill, avail(skill));
      rest := rest - {skill};
    }
    assert skills - rest == skills;
    ok := true;
  }

  lemma AddedNext(m0: Marks, m: Marks, skills: set<string>, rest: set<string>, amount: string -> real, skill: string)
    requires Added(m0, m, skills - rest, amount) && skill in rest && rest <= skills
    ensures Added(m0, Bumped(m, skill, amount(skill)), skills - (rest - {skill}), amount)
  {
    AddedStep(m0, m, skills - rest, amount, skill);
    assert skills - (rest - {skill}) == skills - rest + {skill};
  }

  /** The running totals after some questions. */
  ghost predicate Totals(m: Marks, qs: seq<QuestionSkillScore>, on: string -> QuestionSkillScore -> real) {
    m.Keys == Tagged(qs) && forall s :: s in m ==> m[s] == Total(qs, on(s))
  }

  lemma {:induction false} UntaggedIsZero(qs: seq<QuestionSkillScore>, mark: QuestionSkillScore -> real)
    requires forall i :: 0 <= i < |qs| ==> mark(qs[i]) == 0.0
    ensures Total(qs, mark) == 0.0
  {
    if qs != [] {
      UntaggedIsZero(qs[..|qs| - 1], mark);
    }
  }

  lemma TaggedStep(qs: seq<QuestionSkillScore>, i: nat)
    requires i < |qs|
    ensures Tagged(qs[..i + 1]) == Tagged(qs[..i]) + Tags(qs[i])
  {
    forall s | s in Tagged(qs[..i + 1])
      ensures s in Tagged(qs[..i]) + Tags(qs[i])
    {
      var k :| 0 <= k < i + 1 && s in qs[..i + 1][k].skillIds;
      assert k < i ==> s in qs[..i][k].skillIds;
    }
    forall s | s in Tagged(qs[..i]) + Tags(qs[i])
      ensures s in Tagged(qs[..i + 1])
    {
      if s in Tags(qs[i]) {
        assert s in qs[..i + 1][i].skillIds;
      } else {
        var k :| 0 <= k < i && s in qs[..i][k].skillIds;
        assert s in qs[..i + 1][k].skillIds;
      }
    }
  }

  lemma TotalsStep(
      m0: Marks, m: Marks, qs: seq<QuestionSkillScore>, i: nat,
      on: string -> QuestionSkillScore -> real, amount: string -> real)
    requires i < |qs| && Totals(m0, qs[..i], on) && Added(m0, m, Tags(qs[i]), amount)
    requires forall s, q :: s !in Tags(q) ==> on(s)(q) == 0.0
    requires forall s :: s in Tags(qs[i]) ==> on(s)(qs[i]) == amount(s)
    ensures Totals(m, qs[..i + 1], on)
  {
    TaggedStep(qs, i);
    assert qs[..i + 1][..i] == qs[..i];
    forall s | s in m
      ensures m[s] == Total(qs[..i + 1], on(s))
    {
      assert Total(qs[..i + 1], on(s)) == Total(qs[..i], on(s)) + on(s)(qs[i]);
      if s !in Tagged(qs[..i]) {
        assert forall k :: 0 <= k < i ==> s !in Tags(qs[..i][k]);
        UntaggedIsZero(qs[..i], on(s));
      }
    }
  }

  function Earning(weights: SkillWeights): string -> QuestionSkillScore -> real {
    (skill: string) => EarnedOn(weights, skill)
  }

  function Availing(weights: SkillWeights): string -> QuestionSkillScore -> real {
    (skill: string) => AvailableOn(weights, skill)
  }

  method RollUpSkillScores(perQuestion: seq<QuestionSkillScore>, weights: SkillWeights)
      returns (r: Result<Marks, RangeError>)
    ensures r.Ok? <==> WellFormed(perQuestion, weights)
    ensures r.Ok? ==> r.value == RolledUp(perQuestion, weights)
    ensures r.Err? ==> exists i :: 0 <= i < |perQuestion| && WellFormed(perQuestion[..i], weights)
                                   && Faults(perQuestion[i], weights, r.error)
  {
    var earned: Marks, available: Marks := map[], map[];
    for i := 0 to |perQuestion|
      invariant WellFormed(perQuestion[..i], weights)
      invariant Totals(earned, perQuestion[..i], Earning(weights))
      invariant Totals(available, perQuestion[..i], Availing(weights))
    {
      var question := perQuestion[i];
      if !InRange(question.maxScore, 0.0, None) {
        return Err(MaxScoreOutOfRange);
      }
      if !InRange(question.score, 0.0, Some(question.maxScore.v)) {
        return Err(ScoreOutOfRange);
      }
      var ok, earned', available' :=
        AddMarks(Tags(question), s => GoodWeight(weights, s),
                 Amounts(weights, question.score), Amounts(weights, question.maxScore), earned, available);
      GoodTags(question, weights);
      if !ok {
        return Err(WeightOutOfRange);
      }
      TotalsStep(earned, earned', perQuestion, i, Earning(weights), Amounts(weights, question.score));
      TotalsStep(available, available', perQuestion, i, Availing(weights), Amounts(weights, question.maxScore));
      earned, available := earned', available';
      assert perQuestion[..i + 1] == perQuestion[..i] + [question];
    }
    assert perQuestion[..|perQuestion|] == perQuestion;
    var rolled := RoundTotals(perQuestion, weights, earned, available);
    return Ok(rolled);
  }

  method RoundTotals(ghost qs: seq<QuestionSkillScore>, ghost weights: SkillWeights, earned: Marks, available: Marks)
      returns (rolled: Marks)
    requires WellFormed(qs, weights)
    requires Totals(earned, qs, Earning(weights)) && Totals(available, qs, Availing(weights))
    ensures rolled == RolledUp(qs, weights)
  {
    EntriesRound(qs, weights, earned, available);
    rolled := RoundAll(earned, available, s => Assessed(qs, weights, s), s => Proportion(qs, s));
  }

  lemma EntriesRound(qs: seq<QuestionSkillScore>, weights: SkillWeights, earned: Marks, available: Marks)
    requires WellFormed(qs, weights)
    requires Totals(earned, qs, Earning(weights)) && Totals(available, qs, Availing(weights))
    ensures available.Keys == earned.Keys == Tagged(qs)
    ensures forall s :: s in available ==> Rounds(earned[s], available[s], Assessed(qs, weights, s), Proportion(qs, s))
  {
    forall s | s in available
      ensures Rounds(earned[s], available[s], Assessed(qs, weights, s), Proportion(qs, s))
    {
      RoundedEntry(qs, weights, s, earned[s], available[s]);
    }
  }

  /** What the last loop makes of one skill's totals. */
  ghost predicate Rounds(earned: real, available: real, assessed: bool, proportion: real) {
    && (available > 0.0 <==> assessed)
    && (available > 0.0 ==> RoundProportion(Finite(earned / available)) == Ok(proportion))
  }

  lemma GoodTags(q: QuestionSkillScore, weights: SkillWeights)
    ensures (forall s :: s in Tags(q) ==> GoodWeight(weights, s))
       <==> forall i :: 0 <= i < |q.skillIds| ==> GoodWeight(weights, q.skillIds[i])
  {
    if forall s :: s in Tags(q) ==> GoodWeight(weights, s) {
      forall i | 0 <= i < |q.skillIds|
        ensures GoodWeight(weights, q.skillIds[i])
      {
        assert q.skillIds[i] in Tags(q);
      }
    }
  }

  /** The last loop: a skill with no marks available is left out, every other one is rounded. */
  method RoundAll(earned: Marks, available: Marks, ghost assessed: string -> bool, ghost proportion: string -> real)
      returns (rolled: Marks)
    requires forall s :: s in available ==> s in earned && Rounds(earned[s], available[s], assessed(s), proportion(s))
    ensures forall s :: s in rolled <==> s in available && assessed(s)
    ensures forall s :: s in rolled ==> rolled[s] == proportion(s)
  {
    rolled := map[];
    var rest := available.Keys;
    while rest != {}
      invariant rest <= available.Keys
      invariant forall s :: s in rolled <==> s in available && s !in rest && assessed(s)
      invariant forall s :: s in rolled ==> rolled[s] == proportion(s)
      decreases |rest|
    {
      var skill :| skill in rest;
      rest := rest - {skill};
      assert Rounds(earned[skill], available[skill], assessed(skill), proportion(skill));
      if available[skill] <= 0.0 {
        continue;
      }
      var rounded := RoundProportion(Finite(MarkOf(earned, skill) / available[skill]));
      rolled := rolled[skill := rounded.value];
    }
  }

  lemma EarnedTerm(q: QuestionSkillScore, weights: SkillWeights, skill: string, w: real)
    requires GoodMarks(q) && WeightOf(weights, skill) == Finite(w)
    ensures EarnedOn(weights, skill)(q) == w * ScoreOn(skill)(q)
  {
    if skill in q.skillIds {
      assert Amounts(weights, q.score)(skill) == Amount(weights, skill, q.score);
    }
  }

  lemma AvailableTerm(q: QuestionSkillScore, weights: SkillWeights, skill: string, w: real)
    requires GoodMarks(q) && WeightOf(weights, skill) == Finite(w)
    ensures AvailableOn(weights, skill)(q) == w * MaxOn(skill)(q)
  {
    if skill in q.skillIds {
      assert Amounts(weights, q.maxScore)(skill) == Amount(weights, skill, q.maxScore);
    }
  }

  /** A factor common to every mark comes out of their total. */
  lemma {:induction false} FactorOut(
      qs: seq<QuestionSkillScore>, f: QuestionSkillScore -> real, g: QuestionSkillScore -> real, w: real)
    requires forall q :: q in qs ==> f(q) == w * g(q)
    ensures Total(qs, f) == w * Total(qs, g)
  {
    if qs != [] {
      var n := |qs| - 1;
      FactorOut(qs[..n], f, g, w);
      Distribute(w, Total(qs[..n], g), g(qs[n]));
    }
  }

  lemma WeightFactorsOut(qs: seq<QuestionSkillScore>, weights: SkillWeights, skill: string)
    requires WellFormed(qs, weights) && GoodWeight(weights, skill)
    ensures Total(qs, EarnedOn(weights, skill)) == WeightOf(weights, skill).v * Scored(qs, skill)
    ensures Total(qs, AvailableOn(weights, skill)) == WeightOf(weights, skill).v * Available(qs, skill)
  {
    EarnedFactorsOut(qs, weights, skill, WeightOf(weights, skill).v);
    AvailableFactorsOut(qs, weights, skill, WeightOf(weights, skill).v);
  }

  lemma EarnedFactorsOut(qs: seq<QuestionSkillScore>, weights: SkillWeights, skill: string, w: real)
    requires WellFormed(qs, weights) && WeightOf(weights, skill) == Finite(w)
    ensures Total(qs, EarnedOn(weights, skill)) == w * Scored(qs, skill)
  {
    forall q | q in qs
      ensures EarnedOn(weights, skill)(q) == w * ScoreOn(skill)(q)
    {
      assert GoodQuestion(q, weights);
      EarnedTerm(q, weights, skill, w);
    }
    FactorOut(qs, EarnedOn(weights, skill), ScoreOn(skill), w);
  }

  lemma AvailableFactorsOut(qs: seq<QuestionSkillScore>, weights: SkillWeights, skill: string, w: real)
    requires WellFormed(qs, weights) && WeightOf(weights, skill) == Finite(w)
    ensures Total(qs, AvailableOn(weights, skill)) == w * Available(qs, skill)
  {
    forall q | q in qs
      ensures AvailableOn(weights, skill)(q) == w * MaxOn(skill)(q)
    {
      assert GoodQuestion(q, weights);
      AvailableTerm(q, weights, skill, w);
    }
    FactorOut(qs, AvailableOn(weights, skill), MaxOn(skill), w);
  }

  lemma Distribute(w: real, a: real, b: real)
    ensures w * (a + b) == w * a + w * b
  {
  }

  /** A skill has marks available exactly when it is assessed, and then its weight cancels. */
  lemma RoundedEntry(qs: seq<QuestionSkillScore>, weights: SkillWeights, skill: string, earned: real, available: real)
    requires WellFormed(qs, weights) && skill in Tagged(qs)
    requires earned == Total(qs, EarnedOn(weights, skill)) && available == Total(qs, AvailableOn(weights, skill))
    ensures Rounds(earned, available, Assessed(qs, weights, skill), Proportion(qs, skill))
  {
    var w, a, b := EntryFacts(qs, weights, skill);
    RoundsRatio(w, a, b, earned, available);
  }

  lemma EntryFacts(qs: seq<QuestionSkillScore>, weights: SkillWeights, skill: string)
      returns (w: real, a: real, b: real)
    requires WellFormed(qs, weights) && skill in Tagged(qs)
    ensures WeightOf(weights, skill) == Finite(w) && a == Scored(qs, skill) && b == Available(qs, skill)
    ensures w >= 0.0 && 0.0 <= a <= b
    ensures Total(qs, EarnedOn(weights, skill)) == w * a && Total(qs, AvailableOn(weights, skill)) == w * b
  {
    TaggedWeightIsGood(qs, weights, skill);
    WeightFactorsOut(qs, weights, skill);
    AvailableBounds(qs, weights, skill);
    w, a, b := WeightOf(weights, skill).v, Scored(qs, skill), Available(qs, skill);
  }

  lemma TaggedWeightIsGood(qs: seq<QuestionSkillScore>, weights: SkillWeights, skill: string)
    requires WellFormed(qs, weights) && skill in Tagged(qs)
    ensures GoodWeight(weights, skill)
  {
    var i :| 0 <= i < |qs| && skill in qs[i].skillIds;
    assert GoodQuestion(qs[i], weights);
  }

  lemma RoundsRatio(w: real, a: real, b: real, earned: real, available: real)
    requires w >= 0.0 && 0.0 <= a <= b && earned == w * a && available == w * b
    ensures Rounds(earned, available, w != 0.0 && b > 0.0, if b > 0.0 then ToFixed(a / b) else 0.0)
  {
    WeightedMarks(w, a, b);
  }

  lemma {:induction false} AvailableBounds(qs: seq<QuestionSkillScore>, weights: SkillWeights, skill: string)
    requires WellFormed(qs, weights)
    ensures 0.0 <= Scored(qs, skill) <= Available(qs, skill)
  {
    if qs != [] {
      AvailableBounds(qs[..|qs| - 1], weights, skill);
      assert GoodMarks(qs[|qs| - 1]);
    }
  }

  /** A weight of zero or no marks leaves nothing available; any other weight cancels. */
  lemma WeightedMarks(w: real, a: real, b: real)
    requires w >= 0.0 && 0.0 <= a <= b
    ensures w * b > 0.0 <==> w != 0.0 && b > 0.0
    ensures w * b > 0.0 ==> (w * a) / (w * b) == a / b
  {
    if w > 0.0 && b > 0.0 {
      var x, d := a / b, w * b;
      assert x * b == a;
      assert d > 0.0;
      assert x * d == w * (x * b);
      QuotientIs(w * a, d, x);
    }
  }

  lemma QuotientIs(n: real, d: real, x: real)
    requires d != 0.0 && x * d == n
    ensures n / d == x
  {
    var y := n / d;
    assert y * d == n;
    assert (y - x) * d == 0.0;
  }

  // ---- What the report can rely on ---------------------------------------------------------------

  lemma Ratio(a: real, b: real)
    requires 0.0 <= a <= b && b > 0.0
    ensures 0.0 <= a / b <= 1.0
  {
    assert a / b * b == a;
  }

  lemma RoundedRatio(a: real, a': real, b: real)
    requires 0.0 <= a <= a' <= b && b > 0.0
    ensures 0.0 <= ToFixed(a / b) <= ToFixed(a' / b) <= 1.0
  {
    Ratio(a, b);
    Ratio(a', b);
    assert a / b <= a' / b by {
      Ratio(a' - a, b);
      assert (a' - a) / b == a' / b - a / b;
    }
    UnitRounding(a / b, a' / b);
  }

  lemma UnitRounding(x: real, y: real)
    requires 0.0 <= x <= y <= 1.0
    ensures 0.0 <= ToFixed(x) <= ToFixed(y) <= 1.0
  {
    RoundingIsMonotone(x, y);
  }

  /** Every proportion lies between nothing and everything. */
  lemma ProportionsInUnitInterval(qs: seq<QuestionSkillScore>, weights: SkillWeights, skill: string)
    requires WellFormed(qs, weights) && skill in RolledUp(qs, weights)
    ensures 0.0 <= RolledUp(qs, weights)[skill] <= 1.0
  {
    AvailableBounds(qs, weights, skill);
    RoundedRatio(Scored(qs, skill), Scored(qs, skill), Available(qs, skill));
  }

  lemma {:induction false} RemoveOne(qs: seq<QuestionSkillScore>, i: nat, mark: QuestionSkillScore -> real)
    requires i < |qs|
    ensures Total(qs, mark) == Total(Without(qs, i), mark) + mark(qs[i])
    decreases |qs|
  {
    var n := |qs| - 1;
    var less := Without(qs, i);
    if i == n {
      assert less == qs[..n];
    } else {
      RemoveOne(qs[..n], i, mark);
      assert less[..n - 1] == Without(qs[..n], i) && less[n - 1] == qs[n];
    }
  }

  lemma {:induction false} TotalIgnoresOrder(
      p: seq<QuestionSkillScore>, q: seq<QuestionSkillScore>, mark: QuestionSkillScore -> real)
    requires multiset(p) == multiset(q)
    ensures Total(p, mark) == Total(q, mark)
    decreases |p|
  {
    assert |multiset(p)| == |p| && |multiset(q)| == |q|;
    if p != [] {
      var n := |p| - 1;
      assert p[n] in multiset(q);
      var i :| 0 <= i < |q| && q[i] == p[n];
      WithoutMultiset(p, n);
      WithoutMultiset(q, i);
      CancelMultiset(multiset{p[n]}, multiset(Without(p, n)), multiset(Without(q, i)));
      TotalIgnoresOrder(Without(p, n), Without(q, i), mark);
      RemoveOne(p, n, mark);
      RemoveOne(q, i, mark);
    }
  }

  /** The order the questions come in does not matter. */
  lemma RollUpIgnoresOrder(p: seq<QuestionSkillScore>, q: seq<QuestionSkillScore>, weights: SkillWeights)
    requires multiset(p) == multiset(q)
    ensures WellFormed(p, weights) <==> WellFormed(q, weights)
    ensures RolledUp(p, weights) == RolledUp(q, weights)
  {
    PermutedFacts(p, q, weights);
    PermutedFacts(q, p, weights);
    assert Tagged(p) == Tagged(q);
    forall s
      ensures Scored(p, s) == Scored(q, s) && Available(p, s) == Available(q, s)
    {
      TotalIgnoresOrder(p, q, ScoreOn(s));
      TotalIgnoresOrder(p, q, MaxOn(s));
    }
  }

  lemma PermutedFacts(p: seq<QuestionSkillScore>, q: seq<QuestionSkillScore>, weights: SkillWeights)
    requires multiset(p) == multiset(q)
    ensures Tagged(p) <= Tagged(q)
    ensures WellFormed(q, weights) ==> WellFormed(p, weights)
  {
    forall i | 0 <= i < |p|
      ensures exists k :: 0 <= k < |q| && q[k] == p[i]
    {
      assert p[i] in multiset(q);
    }
  }

  /** Only which skills a question carries matters, not how often or in what order it lists them. */
  lemma RollUpIgnoresRepeatedTags(p: seq<QuestionSkillScore>, q: seq<QuestionSkillScore>, weights: SkillWeights)
    requires |p| == |q|
    requires forall i :: 0 <= i < |p| ==>
             Tags(p[i]) == Tags(q[i]) && p[i].score == q[i].score && p[i].maxScore == q[i].maxScore
    ensures RolledUp(p, weights) == RolledUp(q, weights)
  {
    assert forall i, s :: 0 <= i < |p| ==>
           (s in p[i].skillIds <==> s in Tags(p[i])) && (s in q[i].skillIds <==> s in Tags(q[i]));
    assert Tagged(p) == Tagged(q);
    forall s
      ensures Scored(p, s) == Scored(q, s) && Available(p, s) == Available(q, s)
    {
      SameMarks(p, q, ScoreOn(s));
      SameMarks(p, q, MaxOn(s));
    }
  }

  lemma {:induction false} SameMarks(
      p: seq<QuestionSkillScore>, q: seq<QuestionSkillScore>, mark: QuestionSkillScore -> real)
    requires |p| == |q| && forall i :: 0 <= i < |p| ==> mark(p[i]) == mark(q[i])
    ensures Total(p, mark) == Total(q, mark)
  {
    if p != [] {
      SameMarks(p[..|p| - 1], q[..|q| - 1], mark);
    }
  }

  function Raised(qs: seq<QuestionSkillScore>, i: nat, score: real): seq<QuestionSkillScore>
    requires i < |qs|
  {
    qs[i := qs[i].(score := Finite(score))]
  }

  lemma RaisedTotals(qs: seq<QuestionSkillScore>, weights: SkillWeights, i: nat, score: real, skill: string)
    requires WellFormed(qs, weights) && i < |qs| && GoodMarks(qs[i]) && qs[i].score.v <= score <= qs[i].maxScore.v
    ensures WellFormed(Raised(qs, i, score), weights) && Tagged(Raised(qs, i, score)) == Tagged(qs)
    ensures Available(Raised(qs, i, score), skill) == Available(qs, skill)
    ensures Scored(Raised(qs, i, score), skill) >= Scored(qs, skill)
  {
    var raised := Raised(qs, i, score);
    assert Without(raised, i) == Without(qs, i);
    RemoveOne(qs, i, ScoreOn(skill));
    RemoveOne(raised, i, ScoreOn(skill));
    RemoveOne(qs, i, MaxOn(skill));
    RemoveOne(raised, i, MaxOn(skill));
    assert forall j :: 0 <= j < |qs| ==> raised[j].skillIds == qs[j].skillIds;
    forall j | 0 <= j < |qs|
      ensures GoodQuestion(raised[j], weights)
    {
      assert GoodQuestion(qs[j], weights);
    }
  }

  /** Raising one score never lowers any skill, and never adds or drops one. */
  lemma RaisingAScoreNeverLowers(qs: seq<QuestionSkillScore>, weights: SkillWeights, i: nat, score: real, skill: string)
    requires WellFormed(qs, weights) && i < |qs| && GoodMarks(qs[i]) && qs[i].score.v <= score <= qs[i].maxScore.v
    ensures WellFormed(Raised(qs, i, score), weights)
    ensures skill in RolledUp(Raised(qs, i, score), weights) <==> skill in RolledUp(qs, weights)
    ensures skill in RolledUp(qs, weights) ==>
            RolledUp(Raised(qs, i, score), weights)[skill] >= RolledUp(qs, weights)[skill]
  {
    RaisedTotals(qs, weights, i, score, skill);
    if skill in RolledUp(qs, weights) {
      AvailableBounds(qs, weights, skill);
      AvailableBounds(Raised(qs, i, score), weights, skill);
      RoundedRatio(Scored(qs, skill), Scored(Raised(qs, i, score), skill), Available(qs, skill));
    }
  }

  // ---- One question at a time ---------------------------------------------------------------------

  /** A question adds its marks to each skill it carries, and to no other. */
  lemma QuestionAdds(qs: seq<QuestionSkillScore>, q: QuestionSkillScore, skill: string)
    requires GoodMarks(q)
    ensures Scored(qs + [q], skill) == Scored(qs, skill) + if skill in q.skillIds then q.score.v else 0.0
    ensures Available(qs + [q], skill) == Available(qs, skill) + if skill in q.skillIds then q.maxScore.v else 0.0
  {
    assert (qs + [q])[..|qs|] == qs;
  }

  /** One question's skill is reported as its score over its maximum, to six places. */
  lemma OneQuestionReport(q: QuestionSkillScore, weights: SkillWeights, skill: string)
    requires WellFormed([q], weights) && skill in q.skillIds && GoodMarks(q)
    ensures skill in RolledUp([q], weights) <==> WeightOf(weights, skill) != Finite(0.0) && q.maxScore.v > 0.0
    ensures skill in RolledUp([q], weights) ==> RolledUp([q], weights)[skill] == ToFixed(q.score.v / q.maxScore.v)
  {
    QuestionAdds([], q, skill);
    assert [] + [q] == [q];
    assert skill in [q][0].skillIds;
  }

  /**
   A question is well formed exactly when its score lies between nothing and its maximum and no weight
   given is negative.
   */
  lemma WellFormedQuestions(q: QuestionSkillScore, weights: SkillWeights)
    ensures GoodQuestion(q, weights) <==>
              && (exists score, max :: q.score == Finite(score) && q.maxScore == Finite(max) && 0.0 <= score <= max)
              && forall i :: 0 <= i < |q.skillIds| && q.skillIds[i] in weights ==>
                   weights[q.skillIds[i]].Finite? && weights[q.skillIds[i]].v >= 0.0
  {
  }

  /** Only a finite number is rounded. */
  lemma OnlyFiniteIsRounded(value: Num)
    ensures RoundProportion(value) == Err(NotFinite) <==> value.PosInf? || value.NegInf? || value.NaN?
    ensures value.Finite? ==> RoundProportion(value) == Ok(ToFixed(value.v))
  {
  }

  /** A negative number is rounded as its mirror image. */
  lemma NegativesMirror(x: real)
    requires x < 0.0
    ensures ToFixed(x) == -ToFixed(-x)
  {
  }
}

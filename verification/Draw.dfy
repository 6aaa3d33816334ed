/** The question draw (packages/core-domain/src/draw.ts): filter, deduplicate, sort, shuffle, take. */
module Draw {
  import opened Prelude
  import opened Sorting
  import opened Shuffle

  const MIN_DIFFICULTY := 1.0
  const MAX_DIFFICULTY := 5.0

  datatype QuestionKind =
    | McqSingle | McqMulti | TrueFalse | ShortAnswer | Coding | Sql | Subjective | SystemDesign

  datatype SectionRule = SectionRule(
    pickCount: Num,
    skillIds: seq<string>,
    kinds: seq<QuestionKind>,
    minDifficulty: Num,
    maxDifficulty: Num,
    excludeSeenDays: Num,
    scorePerQuestion: Num)

  datatype DrawCandidate = DrawCandidate(
    id: string,
    skillIds: seq<string>,
    kind: QuestionKind,
    difficulty: Num,
    lastSeenDaysAgo: Option<Num>)

  datatype DomainError =
    | InvalidRule(message: string)
    | DrawInfeasible(pickCount: int, eligibleCount: nat, poolSize: nat)

  // ---- The rule ------------------------------------------------------------------------

  function ValidateRule(rule: SectionRule): Option<DomainError> {
    if !rule.pickCount.IsInteger() || rule.pickCount.v <= 0.0 then
      Some(InvalidRule("pickCount must be a positive integer."))
    else if !rule.minDifficulty.IsInteger() || !rule.maxDifficulty.IsInteger()
            || rule.minDifficulty.v < MIN_DIFFICULTY || rule.maxDifficulty.v > MAX_DIFFICULTY then
      Some(InvalidRule("Difficulty bounds must be integers between 1 and 5."))
    else if rule.minDifficulty.v > rule.maxDifficulty.v then
      Some(InvalidRule("minDifficulty must not exceed maxDifficulty."))
    else if !rule.excludeSeenDays.IsInteger() || rule.excludeSeenDays.v < 0.0 then
      Some(InvalidRule("excludeSeenDays must be a non-negative integer."))
    else if !rule.scorePerQuestion.Finite? || rule.scorePerQuestion.v < 0.0 then
      Some(InvalidRule("scorePerQuestion must be a finite, non-negative number."))
    else None
  }

  predicate ValidRule(rule: SectionRule) {
    ValidateRule(rule).None?
  }

  /** How many questions a valid rule asks for. */
  function PickCount(rule: SectionRule): (n: nat)
    requires ValidRule(rule)
    ensures n >= 1 && Int(n) == rule.pickCount
  {
    rule.pickCount.v.Floor
  }

  predicate MatchesRule(rule: SectionRule, entry: DrawCandidate) {
    if !entry.difficulty.IsInteger() then false
    else if entry.difficulty.Less(rule.minDifficulty) || rule.maxDifficulty.Less(entry.difficulty) then false
    else if |rule.kinds| > 0 && entry.kind !in rule.kinds then false
    else if |rule.skillIds| > 0
            && !exists i :: 0 <= i < |entry.skillIds| && entry.skillIds[i] in rule.skillIds then false
    else if Int(0).Less(rule.excludeSeenDays) && entry.lastSeenDaysAgo.Some?
            && entry.lastSeenDaysAgo.value.Less(rule.excludeSeenDays) then false
    else true
  }

  // ---- Identifiers are compared as strings -----------------------------------------------

  predicate StringLess(a: string, b: string) {
    if b == [] then false
    else if a == [] then true
    else if a[0] != b[0] then a[0] < b[0]
    else StringLess(a[1..], b[1..])
  }

  lemma {:induction false} StringLessTransitive(a: string, b: string, c: string)
    requires StringLess(a, b) && StringLess(b, c)
    ensures StringLess(a, c)
  {
    if a != [] && a[0] == b[0] == c[0] {
      StringLessTransitive(a[1..], b[1..], c[1..]);
    }
  }

  lemma {:induction false} StringLessTrichotomy(a: string, b: string)
    ensures StringLess(a, b) || StringLess(b, a) <==> a != b
    ensures !(StringLess(a, b) && StringLess(b, a))
  {
    if a != [] && b != [] && a[0] == b[0] {
      StringLessTrichotomy(a[1..], b[1..]);
      assert a == [a[0]] + a[1..] && b == [b[0]] + b[1..];
    }
  }

  predicate IdAtMost(a: DrawCandidate, b: DrawCandidate) {
    a.id == b.id || StringLess(a.id, b.id)
  }

  lemma IdAtMostIsTotal()
    ensures TotalPreorder(IdAtMost)
  {
    forall a: DrawCandidate, b: DrawCandidate
      ensures IdAtMost(a, b) || IdAtMost(b, a)
    {
      StringLessTrichotomy(a.id, b.id);
    }
    forall a: DrawCandidate, b: DrawCandidate, c: DrawCandidate | IdAtMost(a, b) && IdAtMost(b, c)
      ensures IdAtMost(a, c)
    {
      if a.id != b.id && b.id != c.id {
        StringLessTransitive(a.id, b.id, c.id);
      }
    }
  }

  // ---- The eligible set ------------------------------------------------------------------

  predicate HasId(rows: seq<DrawCandidate>, id: string) {
    exists i :: 0 <= i < |rows| && rows[i].id == id
  }

  /** The matching rows in pool order, keeping the first of each id. */
  function Matched(rule: SectionRule, pool: seq<DrawCandidate>): seq<DrawCandidate> {
    if pool == [] then []
    else
      var before, entry := Matched(rule, pool[..|pool| - 1]), pool[|pool| - 1];
      if HasId(before, entry.id) || !MatchesRule(rule, entry) then before else before + [entry]
  }

  function EligibleRows(rule: SectionRule, pool: seq<DrawCandidate>): seq<DrawCandidate> {
    Sorted(IdAtMost, Matched(rule, pool))
  }

  method Eligible(rule: SectionRule, pool: seq<DrawCandidate>) returns (rows: seq<DrawCandidate>)
    ensures rows == EligibleRows(rule, pool)
  {
    var seen: set<string> := {};
    var matched := [];
    for i := 0 to |pool|
      invariant matched == Matched(rule, pool[..i])
      invariant forall id :: id in seen <==> HasId(matched, id)
    {
      assert pool[..i + 1][..i] == pool[..i];
      var entry := pool[i];
      if entry.id in seen || !MatchesRule(rule, entry) {
        continue;
      }
      ghost var before := matched;
      seen := seen + {entry.id};
      matched := matched + [entry];
      assert matched[|before|].id == entry.id;
      assert forall k :: 0 <= k < |before| ==> matched[k] == before[k];
    }
    assert pool[..|pool|] == pool;
    rows := Sorted(IdAtMost, matched);
  }

  // ---- The draw --------------------------------------------------------------------------

  function Drawn(rule: SectionRule, pool: seq<DrawCandidate>, rng: Rng): Result<seq<DrawCandidate>, DomainError> {
    var invalid := ValidateRule(rule);
    if invalid.Some? then Err(invalid.value)
    else
      var pickable := EligibleRows(rule, pool);
      if |pickable| < PickCount(rule) then Err(DrawInfeasible(PickCount(rule), |pickable|, |pool|))
      else
        ShuffledIsPermutation(pickable, rng);
        Ok(Shuffled(pickable, rng)[..PickCount(rule)])
  }

  method ResolveDraw(rule: SectionRule, pool: seq<DrawCandidate>, rng: Rng)
      returns (r: Result<seq<DrawCandidate>, DomainError>)
    ensures r == Drawn(rule, pool, rng)
  {
    var invalid := ValidateRule(rule);
    if invalid.Some? {
      return Err(invalid.value);
    }
    var pickable := Eligible(rule, pool);
    if |pickable| < PickCount(rule) {
      return Err(DrawInfeasible(PickCount(rule), |pickable|, |pool|));
    }
    var order := ShuffleWith(pickable, rng);
    ShuffledIsPermutation(pickable, rng);
    return Ok(order[..PickCount(rule)]);
  }

  // ---- What the eligible rows are ----------------------------------------------------------

  ghost function MatchingIds(rule: SectionRule, pool: seq<DrawCandidate>): set<string> {
    set c | c in pool && MatchesRule(rule, c) :: c.id
  }

  ghost predicate DistinctIds(rows: seq<DrawCandidate>) {
    forall i, j :: 0 <= i < j < |rows| ==> rows[i].id != rows[j].id
  }

  lemma {:induction false} MatchedIs(rule: SectionRule, pool: seq<DrawCandidate>)
    ensures DistinctIds(Matched(rule, pool))
    ensures forall c :: c in Matched(rule, pool) ==> c in pool && MatchesRule(rule, c)
    ensures forall id :: id in MatchingIds(rule, pool) <==> HasId(Matched(rule, pool), id)
  {
    if pool != [] {
      var n := |pool| - 1;
      var before, entry, all := Matched(rule, pool[..n]), pool[n], Matched(rule, pool);
      MatchedIs(rule, pool[..n]);
      assert pool == pool[..n] + [entry];
      forall id
        ensures id in MatchingIds(rule, pool) <==> HasId(all, id)
      {
        assert id in MatchingIds(rule, pool)
            <==> id in MatchingIds(rule, pool[..n]) || (MatchesRule(rule, entry) && entry.id == id);
        if all != before {
          assert all[|before|] == entry && all[..|before|] == before;
          assert HasId(all, id) <==> HasId(before, id) || entry.id == id;
        }
      }
    }
  }

  /** The eligible rows: matching, one per matching id, in strict id order. */
  lemma EligibleIs(rule: SectionRule, pool: seq<DrawCandidate>)
    ensures forall i, j :: 0 <= i < j < |EligibleRows(rule, pool)| ==>
              StringLess(EligibleRows(rule, pool)[i].id, EligibleRows(rule, pool)[j].id)
    ensures forall c :: c in EligibleRows(rule, pool) ==> c in pool && MatchesRule(rule, c)
    ensures forall id :: id in MatchingIds(rule, pool) <==> HasId(EligibleRows(rule, pool), id)
  {
    var matched, rows := Matched(rule, pool), EligibleRows(rule, pool);
    MatchedIs(rule, pool);
    SortedIsPermutation(IdAtMost, matched);
    IdAtMostIsTotal();
    SortedIsAscending(IdAtMost, matched);
    SameRows(matched, rows);
    forall i, j | 0 <= i < j < |rows|
      ensures StringLess(rows[i].id, rows[j].id)
    {
      assert IdAtMost(rows[i], rows[j]);
    }
  }

  lemma SameRows(a: seq<DrawCandidate>, b: seq<DrawCandidate>)
    requires multiset(a) == multiset(b) && DistinctIds(a)
    ensures DistinctIds(b)
    ensures forall c :: c in a <==> c in b
    ensures forall id :: HasId(a, id) <==> HasId(b, id)
  {
    assert forall c :: c in a <==> c in multiset(a);
    assert forall c :: c in b <==> c in multiset(b);
    forall i, j | 0 <= i < j < |b|
      ensures b[i].id != b[j].id
    {
      if b[i].id == b[j].id {
        assert b[i] in a && b[j] in a;
        TwiceIn(b, i, j);
        assert multiset(a)[b[i]] >= 2;
        OnceIn(a, b[i]);
        assert false;
      }
    }
    forall id | HasId(a, id)
      ensures HasId(b, id)
    {
      var i :| 0 <= i < |a| && a[i].id == id;
      assert a[i] in b;
    }
    forall id | HasId(b, id)
      ensures HasId(a, id)
    {
      var i :| 0 <= i < |b| && b[i].id == id;
      assert b[i] in a;
    }
  }

  /** Two strictly ordered listings of the same ids are the same listing. */
  lemma {:induction false} SameIdsSameOrder(a: seq<DrawCandidate>, b: seq<DrawCandidate>)
    requires forall i, j :: 0 <= i < j < |a| ==> StringLess(a[i].id, a[j].id)
    requires forall i, j :: 0 <= i < j < |b| ==> StringLess(b[i].id, b[j].id)
    requires forall id :: HasId(a, id) <==> HasId(b, id)
    ensures |a| == |b| && forall k :: 0 <= k < |a| ==> a[k].id == b[k].id
    decreases |a|
  {
    if a == [] {
      assert b != [] ==> HasId(b, b[0].id);
    } else {
      assert HasId(a, a[0].id) && HasId(b, a[0].id) && HasId(a, b[0].id);
      if a[0].id != b[0].id {
        StringLessTrichotomy(a[0].id, b[0].id);
        assert false;
      }
      forall id
        ensures HasId(a[1..], id) <==> HasId(b[1..], id)
      {
        TailIds(a, id);
        TailIds(b, id);
      }
      SameIdsSameOrder(a[1..], b[1..]);
      assert forall k :: 1 <= k < |a| ==> a[k] == a[1..][k - 1] && b[k] == b[1..][k - 1];
    }
  }

  lemma TailIds(a: seq<DrawCandidate>, id: string)
    requires a != [] && forall i, j :: 0 <= i < j < |a| ==> StringLess(a[i].id, a[j].id)
    ensures HasId(a[1..], id) <==> HasId(a, id) && id != a[0].id
  {
    StringLessTrichotomy(a[0].id, a[0].id);
    if HasId(a, id) && id != a[0].id {
      var i :| 0 <= i < |a| && a[i].id == id;
      assert a[1..][i - 1].id == id;
    }
    if HasId(a[1..], id) {
      var i :| 0 <= i < |a[1..]| && a[1..][i].id == id;
      assert a[i + 1].id == id;
    }
  }

  lemma EligibleIdsAgree(rule: SectionRule, p: seq<DrawCandidate>, q: seq<DrawCandidate>)
    requires MatchingIds(rule, p) == MatchingIds(rule, q)
    ensures
      var a, b := EligibleRows(rule, p), EligibleRows(rule, q);
      |a| == |b| && forall k :: 0 <= k < |a| ==> a[k].id == b[k].id
  {
    EligibleIs(rule, p);
    EligibleIs(rule, q);
    SameIdsSameOrder(EligibleRows(rule, p), EligibleRows(rule, q));
  }

  // ---- Exactly pickCount, or infeasible ------------------------------------------------------

  /** A draw never falls short: it is refused exactly when too few distinct questions match. */
  lemma DrawIsExact(rule: SectionRule, pool: seq<DrawCandidate>, rng: Rng)
    requires ValidRule(rule)
    ensures Drawn(rule, pool, rng).Ok? <==> |MatchingIds(rule, pool)| >= PickCount(rule)
    ensures Drawn(rule, pool, rng).Err? ==>
              Drawn(rule, pool, rng).error == DrawInfeasible(PickCount(rule), |MatchingIds(rule, pool)|, |pool|)
    ensures Drawn(rule, pool, rng).Ok? ==>
              var picked := Drawn(rule, pool, rng).value;
              && |picked| == PickCount(rule)
              && DistinctIds(picked)
              && forall c :: c in picked ==> c in pool && MatchesRule(rule, c)
  {
    var rows := EligibleRows(rule, pool);
    EligibleIs(rule, pool);
    CountIds(rule, pool);
    ShuffledIsPermutation(rows, rng);
    forall i, j | 0 <= i < j < |rows|
      ensures rows[i].id != rows[j].id
    {
      StringLessTrichotomy(rows[i].id, rows[j].id);
    }
    SameRows(rows, Shuffled(rows, rng));
  }

  lemma CountIds(rule: SectionRule, pool: seq<DrawCandidate>)
    ensures |EligibleRows(rule, pool)| == |MatchingIds(rule, pool)|
  {
    var rows := EligibleRows(rule, pool);
    EligibleIs(rule, pool);
    var ids := seq(|rows|, i requires 0 <= i < |rows| => rows[i].id);
    forall i, j | 0 <= i < j < |ids|
      ensures ids[i] != ids[j]
    {
      StringLessTrichotomy(rows[i].id, rows[j].id);
    }
    CountDistinct(ids);
    forall id
      ensures id in ids <==> HasId(rows, id)
    {
      if HasId(rows, id) {
        var i :| 0 <= i < |rows| && rows[i].id == id;
        assert ids[i] == id;
      }
    }
    assert (set id | id in ids) == MatchingIds(rule, pool);
  }

  // ---- What is served --------------------------------------------------------------------------

  ghost predicate IsWhole(n: Num, k: int) {
    n == Finite(k as real)
  }

  /**
   A valid rule asks for at least one question, in a band of whole difficulties from 1 to 5, with a
   whole exclusion.
   */
  lemma ValidRuleIff(rule: SectionRule)
    ensures ValidRule(rule) <==>
              && (exists n :: n >= 1 && IsWhole(rule.pickCount, n))
              && (exists lo, hi ::
                   1 <= lo <= hi <= 5 && IsWhole(rule.minDifficulty, lo) && IsWhole(rule.maxDifficulty, hi))
              && (exists days :: days >= 0 && IsWhole(rule.excludeSeenDays, days))
              && rule.scorePerQuestion.Finite? && rule.scorePerQuestion.v >= 0.0
    ensures forall pool, rng ::
              ValidRule(rule) <==> Drawn(rule, pool, rng).Ok? || Drawn(rule, pool, rng).error.DrawInfeasible?
  {
    if ValidRule(rule) {
      assert IsWhole(rule.pickCount, rule.pickCount.v.Floor);
      assert IsWhole(rule.minDifficulty, rule.minDifficulty.v.Floor);
      assert IsWhole(rule.maxDifficulty, rule.maxDifficulty.v.Floor);
      assert IsWhole(rule.excludeSeenDays, rule.excludeSeenDays.v.Floor);
    }
  }

  /** Seen at least so many days ago; a record that is not a number does not count as recent. */
  ghost predicate SeenLongAgo(seen: Num, days: int) {
    seen.NaN? || seen.PosInf? || (seen.Finite? && seen.v >= days as real)
  }

  /** Whole numbers in order. */
  ghost predicate Between(lo: Num, x: Num, hi: Num) {
    exists a, b, c :: a <= b <= c && IsWhole(lo, a) && IsWhole(x, b) && IsWhole(hi, c)
  }

  /** Outside an exclusion of so many days; an exclusion of none shuts nothing out. */
  ghost predicate NotRecent(exclusion: Num, seen: Num) {
    exists days :: IsWhole(exclusion, days) && (days == 0 || SeenLongAgo(seen, days))
  }

  /** What a rule promises of a question: its difficulty, its kind, its skills, and when the candidate last saw it. */
  ghost predicate Suits(rule: SectionRule, c: DrawCandidate) {
    && Between(rule.minDifficulty, c.difficulty, rule.maxDifficulty)
    && (rule.kinds == [] || c.kind in rule.kinds)
    && (rule.skillIds == [] || exists skill :: skill in rule.skillIds && skill in c.skillIds)
    && (c.lastSeenDaysAgo.None? || NotRecent(rule.excludeSeenDays, c.lastSeenDaysAgo.value))
  }

  lemma SuitsDifficulty(rule: SectionRule, c: DrawCandidate)
    requires ValidRule(rule)
    ensures c.difficulty.IsInteger() && !c.difficulty.Less(rule.minDifficulty) && !rule.maxDifficulty.Less(c.difficulty)
       <==> Between(rule.minDifficulty, c.difficulty, rule.maxDifficulty)
  {
    ValidRuleIff(rule);
    var lo, hi :| 1 <= lo <= hi <= 5 && IsWhole(rule.minDifficulty, lo) && IsWhole(rule.maxDifficulty, hi);
    if c.difficulty.IsInteger() {
      var d := c.difficulty.v.Floor;
      assert IsWhole(c.difficulty, d);
    }
  }

  lemma SuitsRecency(rule: SectionRule, seen: Num)
    requires ValidRule(rule)
    ensures !(Int(0).Less(rule.excludeSeenDays) && seen.Less(rule.excludeSeenDays))
       <==> NotRecent(rule.excludeSeenDays, seen)
  {
    ValidRuleIff(rule);
    var days :| days >= 0 && IsWhole(rule.excludeSeenDays, days);
  }

  lemma SuitsSkill(rule: SectionRule, c: DrawCandidate)
    ensures (exists i :: 0 <= i < |c.skillIds| && c.skillIds[i] in rule.skillIds)
       <==> exists skill :: skill in rule.skillIds && skill in c.skillIds
  {
    if skill :| skill in rule.skillIds && skill in c.skillIds {
      var i :| 0 <= i < |c.skillIds| && c.skillIds[i] == skill;
      assert c.skillIds[i] in rule.skillIds;
    }
  }

  lemma MatchesIffSuits(rule: SectionRule, c: DrawCandidate)
    requires ValidRule(rule)
    ensures MatchesRule(rule, c) <==> Suits(rule, c)
  {
    SuitsDifficulty(rule, c);
    SuitsSkill(rule, c);
    if c.lastSeenDaysAgo.Some? {
      SuitsRecency(rule, c.lastSeenDaysAgo.value);
    }
  }

  /**
   Every question served suits the rule and comes from the pool; and every suitable row of the pool may
   be served, by its id.
   */
  lemma ServedSuits(rule: SectionRule, pool: seq<DrawCandidate>, rng: Rng)
    requires ValidRule(rule)
    ensures Drawn(rule, pool, rng).Ok? ==>
              forall c :: c in Drawn(rule, pool, rng).value ==> c in pool && Suits(rule, c)
    ensures forall c :: c in pool && Suits(rule, c) ==> HasId(EligibleRows(rule, pool), c.id)
    ensures forall c :: c in EligibleRows(rule, pool) ==> Suits(rule, c)
  {
    forall c {
      MatchesIffSuits(rule, c);
    }
    DrawIsExact(rule, pool, rng);
    EligibleIs(rule, pool);
    forall c | c in pool && Suits(rule, c)
      ensures HasId(EligibleRows(rule, pool), c.id)
    {
      assert MatchesRule(rule, c) && c.id in MatchingIds(rule, pool);
    }
  }

  // ---- What a draw depends on, and with what probability ----------------------------------------

  /** A draw uses as many numbers as it serves questions: later ones cannot change it. */
  lemma DrawUsesFirstDraws(rule: SectionRule, pool: seq<DrawCandidate>, a: Rng, b: Rng)
    requires ValidRule(rule) && forall i: nat :: i < PickCount(rule) ==> a(i) == b(i)
    ensures Drawn(rule, pool, a) == Drawn(rule, pool, b)
  {
    var rows := EligibleRows(rule, pool);
    if |rows| >= PickCount(rule) {
      ShuffleUsesFirstDraws(rows, a, b, PickCount(rule));
    }
  }

  lemma EligibleAreDistinct(rule: SectionRule, pool: seq<DrawCandidate>)
    ensures Distinct(EligibleRows(rule, pool))
  {
    var rows := EligibleRows(rule, pool);
    EligibleIs(rule, pool);
    forall i, j | 0 <= i < j < |rows|
      ensures rows[i] != rows[j]
    {
      StringLessTrichotomy(rows[i].id, rows[j].id);
    }
  }

  /** Each ordered choice of eligible questions is served exactly on its own box of draws, and all boxes are alike. */
  lemma DrawIsOneBoxOfDraws(rule: SectionRule, pool: seq<DrawCandidate>, rng: Rng, served: seq<DrawCandidate>)
    requires ValidRule(rule) && |served| == PickCount(rule) && IsSelection(EligibleRows(rule, pool), served)
    requires UnitDraws(rng, |served|)
    ensures Drawn(rule, pool, rng) == Ok(served)
       <==> InBox(rng, |EligibleRows(rule, pool)|, SelectionCode(EligibleRows(rule, pool), served))
  {
    EligibleAreDistinct(rule, pool);
    SelectionIsOneBoxOfDraws(EligibleRows(rule, pool), served, rng);
    ShuffledIsPermutation(EligibleRows(rule, pool), rng);
  }

  // ---- The draw is a function of the pool as a set ---------------------------------------------

  ghost predicate SameMatches(rule: SectionRule, p: seq<DrawCandidate>, q: seq<DrawCandidate>) {
    forall c :: MatchesRule(rule, c) ==> (c in p <==> c in q)
  }

  ghost predicate IdsDetermineRows(rule: SectionRule, rows: set<DrawCandidate>) {
    forall a, b :: a in rows && b in rows ==> !Clash(rule, a, b)
  }

  /** Two different rows a rule matches under one id. */
  ghost predicate Clash(rule: SectionRule, a: DrawCandidate, b: DrawCandidate) {
    MatchesRule(rule, a) && MatchesRule(rule, b) && a.id == b.id && a != b
  }

  ghost function Rows(pool: seq<DrawCandidate>): set<DrawCandidate> {
    set c | c in pool
  }

  /** Equal success, or the same refusal up to the reported pool size. */
  ghost predicate SameDraw(a: Result<seq<DrawCandidate>, DomainError>, b: Result<seq<DrawCandidate>, DomainError>) {
    || a == b
    || (&& a.Err? && b.Err? && a.error.DrawInfeasible? && b.error.DrawInfeasible?
        && a.error.(poolSize := 0) == b.error.(poolSize := 0))
  }

  /** Neither order, nor repetition, nor any row the rule does not match can change a draw. */
  lemma DrawIgnoresPresentation(rule: SectionRule, p: seq<DrawCandidate>, q: seq<DrawCandidate>, rng: Rng)
    requires SameMatches(rule, p, q) && IdsDetermineRows(rule, Rows(p))
    ensures SameDraw(Drawn(rule, p, rng), Drawn(rule, q, rng))
  {
    assert MatchingIds(rule, p) == MatchingIds(rule, q);
    EligibleIdsAgree(rule, p, q);
    EligibleIs(rule, p);
    EligibleIs(rule, q);
    var a, b := EligibleRows(rule, p), EligibleRows(rule, q);
    forall k | 0 <= k < |a|
      ensures a[k] == b[k]
    {
      assert a[k] in a && b[k] in b;
      assert !Clash(rule, a[k], b[k]);
    }
    assert a == b;
  }

  ghost predicate OrderIndependent(rule: SectionRule, rows: set<DrawCandidate>) {
    forall p, q, rng :: Rows(p) == rows && Rows(q) == rows ==> SameDraw(Drawn(rule, p, rng), Drawn(rule, q, rng))
  }

  ghost function Ids(rule: SectionRule, rows: set<DrawCandidate>): set<string> {
    set c | c in rows && MatchesRule(rule, c) :: c.id
  }

  /**
   The documented promise, "a function of the pool as a set", holds of a set of rows exactly when
   no two different matching rows share an id, or the rule cannot be drawn from it at all.
   */
  lemma OrderIndependentIff(rule: SectionRule, rows: set<DrawCandidate>)
    ensures OrderIndependent(rule, rows) <==>
              !ValidRule(rule) || |Ids(rule, rows)| < PickCount(rule) || IdsDetermineRows(rule, rows)
  {
    if ValidRule(rule) {
      forall p | Rows(p) == rows
        ensures MatchingIds(rule, p) == Ids(rule, rows)
      {
      }
      if |Ids(rule, rows)| < PickCount(rule) {
        forall p, q, rng | Rows(p) == rows && Rows(q) == rows
          ensures SameDraw(Drawn(rule, p, rng), Drawn(rule, q, rng))
        {
          DrawIsExact(rule, p, rng);
          DrawIsExact(rule, q, rng);
        }
      } else if IdsDetermineRows(rule, rows) {
        forall p, q, rng | Rows(p) == rows && Rows(q) == rows
          ensures SameDraw(Drawn(rule, p, rng), Drawn(rule, q, rng))
        {
          assert forall c :: c in Rows(p) <==> c in p;
          assert forall c :: c in Rows(q) <==> c in q;
          DrawIgnoresPresentation(rule, p, q, rng);
        }
      } else {
        ClashingRowsAreVisible(rule, rows);
      }
    }
  }

  ghost function Listing(rows: set<DrawCandidate>): (s: seq<DrawCandidate>)
    ensures Rows(s) == rows
    decreases |rows|
  {
    if rows == {} then []
    else
      var c :| c in rows;
      var rest := Listing(rows - {c});
      assert forall x :: x in Rows(rest) <==> x in rest;
      assert Rows(rest + [c]) == Rows(rest) + {c};
      rest + [c]
  }

  /** If two matching rows share an id, listing one or the other first shows in some draw. */
  lemma ClashingRowsAreVisible(rule: SectionRule, rows: set<DrawCandidate>)
    requires ValidRule(rule) && |Ids(rule, rows)| >= PickCount(rule) && !IdsDetermineRows(rule, rows)
    ensures !OrderIndependent(rule, rows)
  {
    var a, b :| a in rows && b in rows && Clash(rule, a, b);
    ListedFirst(rule, rows, a);
    ListedFirst(rule, rows, b);
    ClashIsVisible(rule, rows, a, b, Listing(rows));
  }

  lemma ClashIsVisible(
      rule: SectionRule, rows: set<DrawCandidate>, a: DrawCandidate, b: DrawCandidate, rest: seq<DrawCandidate>)
    requires ValidRule(rule) && Clash(rule, a, b) && Rows([a] + rest) == rows && Rows([b] + rest) == rows
    requires MatchingIds(rule, [a] + rest) == MatchingIds(rule, [b] + rest)
             && |MatchingIds(rule, [a] + rest)| >= PickCount(rule)
    ensures !OrderIndependent(rule, rows)
  {
    var rng := ClashingDraws(rule, a, b, rest);
    assert !SameDraw(Drawn(rule, [a] + rest, rng), Drawn(rule, [b] + rest, rng));
  }

  lemma ListedFirst(rule: SectionRule, rows: set<DrawCandidate>, c: DrawCandidate)
    requires c in rows
    ensures Rows([c] + Listing(rows)) == rows
    ensures MatchingIds(rule, [c] + Listing(rows)) == Ids(rule, rows)
  {
    assert forall x :: x in Rows(Listing(rows)) <==> x in Listing(rows);
    assert forall x :: x in [c] + Listing(rows) <==> x in rows;
  }

  lemma ClashingDraws(rule: SectionRule, a: DrawCandidate, b: DrawCandidate, rest: seq<DrawCandidate>)
      returns (rng: Rng)
    requires ValidRule(rule) && MatchesRule(rule, a) && MatchesRule(rule, b) && a.id == b.id && a != b
    requires MatchingIds(rule, [a] + rest) == MatchingIds(rule, [b] + rest)
    requires |MatchingIds(rule, [a] + rest)| >= PickCount(rule)
    ensures Drawn(rule, [a] + rest, rng).Ok? && Drawn(rule, [b] + rest, rng).Ok?
    ensures Drawn(rule, [a] + rest, rng) != Drawn(rule, [b] + rest, rng)
  {
    CountIds(rule, [a] + rest);
    CountIds(rule, [b] + rest);
    var i := ClashPosition(rule, a, b, rest);
    rng := AimedFirst(i, |EligibleRows(rule, [a] + rest)|);
    AimedDraw(rule, [a] + rest, i, rng);
    AimedDraw(rule, [b] + rest, i, rng);
  }

  /** Whichever of two same-id rows is listed first takes the same place in the eligible rows. */
  lemma ClashPosition(rule: SectionRule, a: DrawCandidate, b: DrawCandidate, rest: seq<DrawCandidate>) returns (i: nat)
    requires MatchesRule(rule, a) && MatchesRule(rule, b) && a.id == b.id
    requires MatchingIds(rule, [a] + rest) == MatchingIds(rule, [b] + rest)
    ensures i < |EligibleRows(rule, [a] + rest)| == |EligibleRows(rule, [b] + rest)|
    ensures EligibleRows(rule, [a] + rest)[i] == a && EligibleRows(rule, [b] + rest)[i] == b
  {
    var s, t := EligibleRows(rule, [a] + rest), EligibleRows(rule, [b] + rest);
    FirstKept(rule, a, rest);
    FirstKept(rule, b, rest);
    EligibleIdsAgree(rule, [a] + rest, [b] + rest);
    i :| 0 <= i < |s| && s[i] == a;
    var j :| 0 <= j < |t| && t[j] == b;
    EligibleIs(rule, [b] + rest);
    StringLessTrichotomy(t[i].id, t[j].id);
    assert i == j;
  }

  lemma AimedFirst(i: nat, n: nat) returns (rng: Rng)
    requires i < n
    ensures Picks(rng, 0, n)[0] == i
  {
    var picks := [i] + seq(n - 1, _ => 0);
    assert IsCodeShape(n, picks);
    rng := Aimed(picks);
  }

  lemma AimedDraw(rule: SectionRule, pool: seq<DrawCandidate>, i: nat, rng: Rng)
    requires ValidRule(rule) && |EligibleRows(rule, pool)| >= PickCount(rule)
    requires i < |EligibleRows(rule, pool)| && Picks(rng, 0, |EligibleRows(rule, pool)|)[0] == i
    ensures Drawn(rule, pool, rng).Ok? && |Drawn(rule, pool, rng).value| >= 1
    ensures Drawn(rule, pool, rng).value[0] == EligibleRows(rule, pool)[i]
  {
    ShuffledIsPermutation(EligibleRows(rule, pool), rng);
  }

  lemma FirstKept(rule: SectionRule, c: DrawCandidate, rest: seq<DrawCandidate>)
    requires MatchesRule(rule, c)
    ensures c in EligibleRows(rule, [c] + rest)
  {
    FirstMatchedKept(rule, c, rest);
    SortedIsPermutation(IdAtMost, Matched(rule, [c] + rest));
    assert c in multiset(Matched(rule, [c] + rest));
  }

  lemma {:induction false} FirstMatchedKept(rule: SectionRule, c: DrawCandidate, rest: seq<DrawCandidate>)
    requires MatchesRule(rule, c)
    ensures c in Matched(rule, [c] + rest)
    decreases |rest|
  {
    if rest == [] {
      assert [c] + rest == [c] && [c][..0] == [];
    } else {
      var n := |rest| - 1;
      assert ([c] + rest)[..n + 1] == [c] + rest[..n];
      FirstMatchedKept(rule, c, rest[..n]);
    }
  }
}

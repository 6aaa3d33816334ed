/** The candidate's side of the serialisation boundary (packages/contracts/src/questions.ts). */
module CandidateView {
  import opened Prelude
  import opened Draw
  import opened Audience

  // ---- The record: everything the author wrote -----------------------------------------------

  datatype McqOption = McqOption(
    id: string, ordinal: int, bodyMd: string,
    isCorrect: bool, scoreDelta: Option<real>, rationaleMd: Option<string>)

  datatype CodingSpec = CodingSpec(
    allowedLanguages: seq<string>, starterCode: seq<(string, string)>, solutionCode: seq<(string, string)>,
    timeLimitMs: int, memoryLimitKb: int, gradingMode: string, checkerCode: Option<string>, fixtureSql: Option<string>)

  datatype TestCase = TestCase(
    id: string, ordinal: int, caption: Option<string>, stdin: string, expectedStdout: Option<string>,
    args: Option<seq<string>>, assertionCode: Option<string>, isSample: bool, weight: real)

  datatype AnswerKey = AnswerKey(id: string, matchType: string, pattern: string, tolerance: Option<real>, score: real)

  datatype Version = Version(
    id: string, questionId: string, versionNo: int, locale: string, promptMd: string, explanationMd: Option<string>,
    difficulty: int, estSeconds: int, maxScore: real, negativeScore: real, publishedAt: Option<int>,
    createdBy: Option<string>, createdAt: int, options: seq<McqOption>, codingSpec: Option<CodingSpec>,
    testCases: seq<TestCase>, answerKeys: seq<AnswerKey>)

  // ---- The view: what a candidate is served ---------------------------------------------------

  datatype Common = Common(
    questionVersionId: string, promptMd: string, estSeconds: int, maxScore: real, negativeScore: real)

  datatype CandidateOption = CandidateOption(id: string, ordinal: int, bodyMd: string)

  datatype CodingBrief = CodingBrief(
    allowedLanguages: seq<string>, starterCode: seq<(string, string)>, timeLimitMs: int, memoryLimitKb: int,
    fixtureSql: Option<string>, sampleCaseCount: nat, hiddenCaseCount: nat)

  datatype View =
    | ChoiceQuestion(common: Common, kind: QuestionKind, options: seq<CandidateOption>)
    | CodingQuestion(common: Common, kind: QuestionKind, coding: CodingBrief)
    | ProseQuestion(common: Common, kind: QuestionKind)
    | ShortAnswerQuestion(common: Common)

  predicate IsChoiceKind(kind: QuestionKind) {
    kind in [McqSingle, McqMulti, TrueFalse]
  }

  predicate IsCodeKind(kind: QuestionKind) {
    kind in [Coding, Sql]
  }

  predicate IsProseKind(kind: QuestionKind) {
    kind in [Subjective, SystemDesign]
  }

  function CandidateOptionOf(o: McqOption): CandidateOption {
    CandidateOption(o.id, o.ordinal, o.bodyMd)
  }

  /** How many cases are samples, or how many are not. */
  function CaseCount(cases: seq<TestCase>, isSample: bool): nat {
    if cases == [] then 0
    else CaseCount(cases[..|cases| - 1], isSample) + if cases[|cases| - 1].isSample == isSample then 1 else 0
  }

  /** The brief with its case counts given; a missing spec serves the schema's defaults. */
  function BriefOf(spec: Option<CodingSpec>, samples: nat, hidden: nat): CodingBrief {
    match spec
    case None => CodingBrief([], [], 5000, 262_144, None, samples, hidden)
    case Some(s) =>
      CodingBrief(s.allowedLanguages, s.starterCode, s.timeLimitMs, s.memoryLimitKb, s.fixtureSql, samples, hidden)
  }

  method CandidateCodingBrief(v: Version) returns (brief: CodingBrief)
    ensures brief == BriefOf(v.codingSpec, CaseCount(v.testCases, true), CaseCount(v.testCases, false))
    ensures brief.sampleCaseCount + brief.hiddenCaseCount == |v.testCases|
  {
    var samples, hidden := 0, 0;
    for i := 0 to |v.testCases|
      invariant samples == CaseCount(v.testCases[..i], true) && hidden == CaseCount(v.testCases[..i], false)
      invariant samples + hidden == i
    {
      assert v.testCases[..i + 1][..i] == v.testCases[..i];
      if v.testCases[i].isSample {
        samples := samples + 1;
      } else {
        hidden := hidden + 1;
      }
    }
    assert v.testCases[..|v.testCases|] == v.testCases;
    brief := BriefOf(v.codingSpec, samples, hidden);
  }

  function CommonOf(v: Version): Common {
    Common(v.id, v.promptMd, v.estSeconds, v.maxScore, v.negativeScore)
  }

  function ToCandidateView(kind: QuestionKind, v: Version): View {
    if IsChoiceKind(kind) then
      ChoiceQuestion(CommonOf(v), kind,
          seq(|v.options|, i requires 0 <= i < |v.options| => CandidateOptionOf(v.options[i])))
    else if IsCodeKind(kind) then
      CodingQuestion(CommonOf(v), kind,
          BriefOf(v.codingSpec, CaseCount(v.testCases, true), CaseCount(v.testCases, false)))
    else if IsProseKind(kind) then ProseQuestion(CommonOf(v), kind)
    else ShortAnswerQuestion(CommonOf(v))
  }

  // ---- Non-interference -----------------------------------------------------------------------

  ghost predicate AgreeOnOptions(a: seq<McqOption>, b: seq<McqOption>) {
    |a| == |b| && forall i :: 0 <= i < |a| ==>
        a[i].id == b[i].id && a[i].ordinal == b[i].ordinal && a[i].bodyMd == b[i].bodyMd
  }

  /** The parts of a coding spec a candidate may know, with a missing spec's defaults filled in. */
  ghost function PublicSpec(spec: Option<CodingSpec>): (seq<string>, seq<(string, string)>, int, int, Option<string>) {
    match spec
    case None => ([], [], 5000, 262_144, None)
    case Some(s) => (s.allowedLanguages, s.starterCode, s.timeLimitMs, s.memoryLimitKb, s.fixtureSql)
  }

  /** What two versions must share to be the same to a candidate. No answer key is mentioned. */
  ghost predicate AgreeInPublic(kind: QuestionKind, a: Version, b: Version) {
    && a.id == b.id && a.promptMd == b.promptMd && a.estSeconds == b.estSeconds
    && a.maxScore == b.maxScore && a.negativeScore == b.negativeScore
    && (IsChoiceKind(kind) ==> AgreeOnOptions(a.options, b.options))
    && (IsCodeKind(kind) ==>
          && PublicSpec(a.codingSpec) == PublicSpec(b.codingSpec)
          && |a.testCases| - CaseCount(a.testCases, true) == |b.testCases| - CaseCount(b.testCases, true)
          && CaseCount(a.testCases, true) == CaseCount(b.testCases, true))
  }

  lemma {:induction false} CasesPartition(cases: seq<TestCase>)
    ensures CaseCount(cases, true) + CaseCount(cases, false) == |cases|
  {
    if cases != [] {
      CasesPartition(cases[..|cases| - 1]);
    }
  }

  /** A view reveals the public parts, and nothing but the public parts. */
  lemma ViewRevealsExactlyPublic(kind: QuestionKind, a: Version, b: Version)
    ensures ToCandidateView(kind, a) == ToCandidateView(kind, b) <==> AgreeInPublic(kind, a, b)
  {
    CasesPartition(a.testCases);
    CasesPartition(b.testCases);
    if IsChoiceKind(kind) {
      ChoiceRevealsOptions(kind, a, b);
    }
  }

  lemma ChoiceRevealsOptions(kind: QuestionKind, a: Version, b: Version)
    requires IsChoiceKind(kind)
    ensures ToCandidateView(kind, a).options == ToCandidateView(kind, b).options
            <==> AgreeOnOptions(a.options, b.options)
  {
    var s, t := ToCandidateView(kind, a).options, ToCandidateView(kind, b).options;
    if s == t {
      forall i | 0 <= i < |a.options|
        ensures a.options[i].id == b.options[i].id && a.options[i].ordinal == b.options[i].ordinal
                && a.options[i].bodyMd == b.options[i].bodyMd
      {
        assert s[i] == CandidateOptionOf(a.options[i]) && t[i] == CandidateOptionOf(b.options[i]);
      }
    }
  }

  /** Rewriting every answer key, in any way, leaves every view as it was. */
  lemma AnswerKeysDoNotInterfere(kind: QuestionKind, v: Version, keys: Version)
    requires |keys.options| == |v.options| && |keys.testCases| == |v.testCases|
    ensures ToCandidateView(kind, Rekeyed(v, keys)) == ToCandidateView(kind, v)
  {
    SameCaseCounts(v.testCases, Rekeyed(v, keys).testCases);
    ViewRevealsExactlyPublic(kind, v, Rekeyed(v, keys));
  }

  /** `v` with every answer-key field taken from another version. */
  function Rekeyed(v: Version, keys: Version): Version
    requires |keys.options| == |v.options| && |keys.testCases| == |v.testCases|
  {
    v.(explanationMd := keys.explanationMd,
       difficulty := keys.difficulty,
       answerKeys := keys.answerKeys,
       options := seq(|v.options|, i requires 0 <= i < |v.options| =>
         v.options[i].(isCorrect := keys.options[i].isCorrect, scoreDelta := keys.options[i].scoreDelta,
             rationaleMd := keys.options[i].rationaleMd)),
       testCases := seq(|v.testCases|, i requires 0 <= i < |v.testCases| =>
           keys.testCases[i].(isSample := v.testCases[i].isSample)),
       codingSpec := match (v.codingSpec, keys.codingSpec)
         case (Some(s), Some(k)) =>
             Some(s.(solutionCode := k.solutionCode, checkerCode := k.checkerCode, gradingMode := k.gradingMode))
         case (spec, _) => spec)
  }

  lemma {:induction false} SameCaseCounts(a: seq<TestCase>, b: seq<TestCase>)
    requires |a| == |b| && forall i :: 0 <= i < |a| ==> a[i].isSample == b[i].isSample
    ensures CaseCount(a, true) == CaseCount(b, true)
  {
    if a != [] {
      SameCaseCounts(a[..|a| - 1], b[..|b| - 1]);
    }
  }

  // ---- The served payload names no answer key --------------------------------------------------

  function KindName(kind: QuestionKind): string {
    match kind
    case McqSingle => "mcq_single"
    case McqMulti => "mcq_multi"
    case TrueFalse => "true_false"
    case ShortAnswer => "short_answer"
    case Coding => "coding"
    case Sql => "sql"
    case Subjective => "subjective"
    case SystemDesign => "system_design"
  }

  function OptionalString(o: Option<string>): Json {
    match o
    case None => Null
    case Some(s) => Str(s)
  }

  function CommonFields(c: Common, kind: QuestionKind): seq<Field> {
    [Field("question_version_id", Str(c.questionVersionId)), Field("prompt_md", Str(c.promptMd)),
     Field("est_seconds", Number(c.estSeconds as real)), Field("max_score", Number(c.maxScore)),
     Field("negative_score", Number(c.negativeScore)), Field("kind", Str(KindName(kind)))]
  }

  function OptionJson(o: CandidateOption): Json {
    Obj([Field("id", Str(o.id)), Field("ordinal", Number(o.ordinal as real)), Field("body_md", Str(o.bodyMd))])
  }

  function StarterJson(code: seq<(string, string)>): Json {
    Obj(seq(|code|, i requires 0 <= i < |code| => Field(code[i].0, Str(code[i].1))))
  }

  function Strings(s: seq<string>): Json {
    Arr(seq(|s|, i requires 0 <= i < |s| => Str(s[i])))
  }

  function BriefJson(b: CodingBrief): Json {
    Obj([Field("allowed_languages", Strings(b.allowedLanguages)),
         Field("starter_code", StarterJson(b.starterCode)),
         Field("time_limit_ms", Number(b.timeLimitMs as real)),
         Field("memory_limit_kb", Number(b.memoryLimitKb as real)),
         Field("fixture_sql", OptionalString(b.fixtureSql)),
         Field("sample_case_count", Number(b.sampleCaseCount as real)),
         Field("hidden_case_count", Number(b.hiddenCaseCount as real))])
  }

  /** The view as it goes over the wire. */
  function Payload(view: View): Json {
    match view
    case ChoiceQuestion(c, kind, options) =>
      Obj(CommonFields(c, kind)
          + [Field("options", Arr(seq(|options|, i requires 0 <= i < |options| => OptionJson(options[i]))))])
    case CodingQuestion(c, kind, coding) => Obj(CommonFields(c, kind) + [Field("coding", BriefJson(coding))])
    case ProseQuestion(c, kind) => Obj(CommonFields(c, kind))
    case ShortAnswerQuestion(c) => Obj(CommonFields(c, ShortAnswer))
  }

  /** No starter file is filed under a language named like an answer key. */
  ghost predicate InnocentLanguages(code: seq<(string, string)>) {
    forall i :: 0 <= i < |code| ==> !IsAnswerKeyField(code[i].0)
  }

  ghost function StarterCode(view: View): seq<(string, string)> {
    if view.CodingQuestion? then view.coding.starterCode else []
  }

  predicate CleanField(f: Field) {
    !IsAnswerKeyField(f.key) && Clean(f.value)
  }

  lemma CleanObjectIff(fields: seq<Field>)
    ensures Clean(Obj(fields)) <==> forall i :: 0 <= i < |fields| ==> CleanField(fields[i])
  {
  }

  lemma CommonFieldsClean(c: Common, kind: QuestionKind, i: nat)
    requires i < |CommonFields(c, kind)|
    ensures CleanField(CommonFields(c, kind)[i])
  {
  }

  lemma OptionClean(o: CandidateOption)
    ensures Clean(OptionJson(o))
  {
    CleanObjectIff(OptionJson(o).fields);
  }

  lemma StarterCleanIff(code: seq<(string, string)>)
    ensures Clean(StarterJson(code)) <==> InnocentLanguages(code)
  {
    var fields := StarterJson(code).fields;
    assert forall i :: 0 <= i < |code| ==> fields[i].key == code[i].0 && Clean(fields[i].value);
  }

  lemma BriefCleanIff(b: CodingBrief)
    ensures Clean(BriefJson(b)) <==> InnocentLanguages(b.starterCode)
  {
    var fields := BriefJson(b).fields;
    CleanObjectIff(fields);
    BriefFieldsClean(b, fields);
  }

  lemma BriefFieldsClean(b: CodingBrief, fields: seq<Field>)
    requires fields == BriefJson(b).fields
    ensures forall i :: 0 <= i < |fields| && i != 1 ==> CleanField(fields[i])
    ensures |fields| > 1 && (CleanField(fields[1]) <==> InnocentLanguages(b.starterCode))
  {
    StarterCleanIff(b.starterCode);
    forall i | 0 <= i < |fields| && i != 1
      ensures CleanField(fields[i])
    {
      BriefFieldClean(b, i);
    }
  }

  lemma BriefFieldClean(b: CodingBrief, i: nat)
    requires i < |BriefJson(b).fields| && i != 1
    ensures CleanField(BriefJson(b).fields[i])
  {
  }

  lemma PayloadCleanIff(view: View)
    ensures Clean(Payload(view)) <==> InnocentLanguages(StarterCode(view))
  {
    var kind := if view.ShortAnswerQuestion? then ShortAnswer else view.kind;
    var common, fields := CommonFields(view.common, kind), Payload(view).fields;
    forall i | 0 <= i < |common|
      ensures CleanField(fields[i])
    {
      assert fields[i] == common[i];
      CommonFieldsClean(view.common, kind, i);
    }
    CleanObjectIff(fields);
    match view
    case ChoiceQuestion(_, _, options) =>
      forall i | 0 <= i < |options|
        ensures Clean(OptionJson(options[i]))
      {
        OptionClean(options[i]);
      }
      assert CleanField(fields[|common|]);
    case CodingQuestion(_, _, coding) =>
      BriefCleanIff(coding);
      assert CleanField(fields[|common|]) <==> Clean(BriefJson(coding));
    case _ =>
  }

  /** The detector is silent on a candidate's payload exactly when no starter language is a listed name. */
  lemma ViewPassesDetectorIff(kind: QuestionKind, v: Version)
    ensures Found(Payload(ToCandidateView(kind, v)), "$") == []
            <==> InnocentLanguages(StarterCode(ToCandidateView(kind, v)))
  {
    EmptyIffClean(Payload(ToCandidateView(kind, v)), "$");
    PayloadCleanIff(ToCandidateView(kind, v));
  }

  /** A false alarm: a view that reveals only public parts, which the detector reports all the same. */
  lemma DetectorReportsPublicView(v: Version) returns (w: Version)
    ensures Found(Payload(ToCandidateView(Coding, w)), "$") != []
    ensures w == v.(codingSpec := w.codingSpec) && w.codingSpec.Some?
            && w.codingSpec.value.starterCode == [("pattern", "")]
  {
    var spec := CodingSpec([], [("pattern", "")], [], 5000, 262_144, "test_cases", None, None);
    w := v.(codingSpec := Some(spec));
    ViewPassesDetectorIff(Coding, w);
    assert StarterCode(ToCandidateView(Coding, w))[0].0 == "pattern";
  }

  // ---- The payload says what the version says ---------------------------------------------------

  /** The payload carries this value under this key. */
  predicate Shows(payload: Json, key: string, value: Json) {
    payload.Obj? && Field(key, value) in payload.fields
  }

  /** How many of the cases are samples, or are not: counted as a set of positions. */
  lemma {:induction false} CaseCountIs(cases: seq<TestCase>, isSample: bool)
    ensures CaseCount(cases, isSample) == |Positions(cases, isSample)|
  {
    if cases != [] {
      var n := |cases| - 1;
      CaseCountIs(cases[..n], isSample);
      var before := Positions(cases[..n], isSample);
      assert Positions(cases, isSample) == before + if cases[n].isSample == isSample then {n} else {};
    }
  }

  ghost function Positions(cases: seq<TestCase>, isSample: bool): set<nat> {
    set i: nat | i < |cases| && cases[i].isSample == isSample
  }

  ghost predicate ShowsCommon(payload: Json, v: Version, kind: QuestionKind) {
    && Shows(payload, "question_version_id", Str(v.id)) && Shows(payload, "prompt_md", Str(v.promptMd))
    && Shows(payload, "est_seconds", Number(v.estSeconds as real)) && Shows(payload, "max_score", Number(v.maxScore))
    && Shows(payload, "negative_score", Number(v.negativeScore)) && Shows(payload, "kind", Str(KindName(kind)))
  }

  lemma CommonIsShown(c: Common, kind: QuestionKind, rest: seq<Field>, v: Version)
    requires c == CommonOf(v)
    ensures ShowsCommon(Obj(CommonFields(c, kind) + rest), v, kind)
  {
    var fields := CommonFields(c, kind) + rest;
    assert fields[0] == Field("question_version_id", Str(v.id)) && fields[1] == Field("prompt_md", Str(v.promptMd));
    assert fields[2] == Field("est_seconds", Number(v.estSeconds as real));
    assert fields[3] == Field("max_score", Number(v.maxScore))
           && fields[4] == Field("negative_score", Number(v.negativeScore));
    assert fields[5] == Field("kind", Str(KindName(kind)));
  }

  ghost predicate ShowsOption(payload: Json, o: McqOption) {
    && Shows(payload, "id", Str(o.id)) && Shows(payload, "ordinal", Number(o.ordinal as real))
    && Shows(payload, "body_md", Str(o.bodyMd)) && |payload.fields| == 3
  }

  lemma OptionIsShown(o: McqOption)
    ensures ShowsOption(OptionJson(CandidateOptionOf(o)), o)
  {
    var fields := OptionJson(CandidateOptionOf(o)).fields;
    assert fields[0] == Field("id", Str(o.id)) && fields[1] == Field("ordinal", Number(o.ordinal as real));
    assert fields[2] == Field("body_md", Str(o.bodyMd));
  }

  /** The limits and files a candidate works with, and how many cases there are of each sort. */
  ghost predicate ShowsBrief(payload: Json, v: Version) {
    && payload.Obj? && |payload.fields| == 7
    && Shows(payload, "sample_case_count", Number(|Positions(v.testCases, true)| as real))
    && Shows(payload, "hidden_case_count", Number(|Positions(v.testCases, false)| as real))
    && match v.codingSpec
       case None =>
         && Shows(payload, "time_limit_ms", Number(5000.0)) && Shows(payload, "memory_limit_kb", Number(262144.0))
         && Shows(payload, "fixture_sql", Null) && Shows(payload, "starter_code", Obj([]))
         && Shows(payload, "allowed_languages", Arr([]))
       case Some(s) =>
         && Shows(payload, "time_limit_ms", Number(s.timeLimitMs as real))
         && Shows(payload, "memory_limit_kb", Number(s.memoryLimitKb as real))
         && Shows(payload, "fixture_sql", if s.fixtureSql.Some? then Str(s.fixtureSql.value) else Null)
         && payload.fields[0].key == "allowed_languages" && payload.fields[0].value.Arr?
         && |payload.fields[0].value.elements| == |s.allowedLanguages|
         && (forall i :: 0 <= i < |s.allowedLanguages| ==>
              payload.fields[0].value.elements[i] == Str(s.allowedLanguages[i]))
         && payload.fields[1].key == "starter_code" && payload.fields[1].value.Obj?
         && |payload.fields[1].value.fields| == |s.starterCode|
         && forall i :: 0 <= i < |s.starterCode| ==>
              payload.fields[1].value.fields[i] == Field(s.starterCode[i].0, Str(s.starterCode[i].1))
  }

  lemma BriefIsShown(v: Version, b: CodingBrief)
    requires b == BriefOf(v.codingSpec, CaseCount(v.testCases, true), CaseCount(v.testCases, false))
    ensures ShowsBrief(BriefJson(b), v)
  {
    CaseCountIs(v.testCases, true);
    CaseCountIs(v.testCases, false);
    var fields := BriefJson(b).fields;
    assert fields[2] == Field("time_limit_ms", Number(b.timeLimitMs as real));
    assert fields[3] == Field("memory_limit_kb", Number(b.memoryLimitKb as real));
    assert fields[4] == Field("fixture_sql", OptionalString(b.fixtureSql));
    assert fields[5] == Field("sample_case_count", Number(b.sampleCaseCount as real));
    assert fields[6] == Field("hidden_case_count", Number(b.hiddenCaseCount as real));
    if v.codingSpec.None? {
      assert StarterJson([]).fields == [] && Strings([]).elements == [];
      assert fields[0] == Field("allowed_languages", Arr([])) && fields[1] == Field("starter_code", Obj([]));
    }
  }

  ghost predicate ShowsOptions(payload: Json, v: Version) {
    && payload.Obj? && |payload.fields| == 7 && payload.fields[6].key == "options" && payload.fields[6].value.Arr?
    && |payload.fields[6].value.elements| == |v.options|
    && forall i :: 0 <= i < |v.options| ==> ShowsOption(payload.fields[6].value.elements[i], v.options[i])
  }

  ghost predicate ShowsCoding(payload: Json, v: Version) {
    payload.Obj? && |payload.fields| == 7 && payload.fields[6].key == "coding" && ShowsBrief(payload.fields[6].value, v)
  }

  lemma ChoiceIsShown(kind: QuestionKind, v: Version)
    requires IsChoiceKind(kind)
    ensures ShowsCommon(Payload(ToCandidateView(kind, v)), v, kind)
            && ShowsOptions(Payload(ToCandidateView(kind, v)), v)
  {
    var fields := Payload(ToCandidateView(kind, v)).fields;
    CommonIsShown(CommonOf(v), kind, [fields[6]], v);
    assert fields == CommonFields(CommonOf(v), kind) + [fields[6]];
    forall i | 0 <= i < |v.options|
      ensures ShowsOption(fields[6].value.elements[i], v.options[i])
    {
      OptionIsShown(v.options[i]);
    }
  }

  lemma CodingIsShown(kind: QuestionKind, v: Version)
    requires IsCodeKind(kind)
    ensures ShowsCommon(Payload(ToCandidateView(kind, v)), v, kind) && ShowsCoding(Payload(ToCandidateView(kind, v)), v)
  {
    var view := ToCandidateView(kind, v);
    CommonIsShown(CommonOf(v), kind, [Field("coding", BriefJson(view.coding))], v);
    BriefIsShown(v, view.coding);
  }

  lemma PlainIsShown(kind: QuestionKind, v: Version)
    requires !IsChoiceKind(kind) && !IsCodeKind(kind)
    ensures ShowsCommon(Payload(ToCandidateView(kind, v)), v, kind) && |Payload(ToCandidateView(kind, v)).fields| == 6
  {
    CommonIsShown(CommonOf(v), kind, [], v);
    assert CommonFields(CommonOf(v), kind) + [] == CommonFields(CommonOf(v), kind);
  }

  /**
   What a candidate is served is what the version says, key by key: the scores, the time, the prompt;
   for a choice question every option's id, ordinal and body, in order; for a coding question the
   brief; for the others nothing more.
   */
  lemma PayloadShowsVersion(kind: QuestionKind, v: Version)
    ensures
      var payload := Payload(ToCandidateView(kind, v));
      && ShowsCommon(payload, v, kind)
      && (kind in [McqSingle, McqMulti, TrueFalse] ==> ShowsOptions(payload, v))
      && (kind in [Coding, Sql] ==> ShowsCoding(payload, v))
      && (kind in [Subjective, SystemDesign, ShortAnswer] ==> |payload.fields| == 6)
  {
    if IsChoiceKind(kind) {
      ChoiceIsShown(kind, v);
    } else if IsCodeKind(kind) {
      CodingIsShown(kind, v);
    } else {
      PlainIsShown(kind, v);
    }
  }

  /** The eight kinds go by the names the contract gives them, each its own. */
  lemma KindsAreNamed(kind: QuestionKind, other: QuestionKind)
    ensures KindName(kind) == KindName(other) ==> kind == other
    ensures IsChoiceKind(kind) <==> KindName(kind) in ["mcq_single", "mcq_multi", "true_false"]
    ensures IsCodeKind(kind) <==> KindName(kind) in ["coding", "sql"]
    ensures IsProseKind(kind) <==> KindName(kind) in ["subjective", "system_design"]
    ensures KindName(kind) == "short_answer" <==> kind == ShortAnswer
  {
  }
}

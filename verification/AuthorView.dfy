/**
 The author's side of the serialisation boundary (packages/contracts/src/questions.ts:995-1077): a version
 in full, answer keys and all. The detector reports every part of it that a candidate must not see.
 */
module AuthorView {
  import opened Prelude
  import opened Audience
  import opened CandidateView

  function OptionalNumber(n: Option<real>): Json {
    match n
    case None => Null
    case Some(x) => Number(x)
  }

  function AuthorOption(o: McqOption): Json {
    Obj([Field("id", Str(o.id)), Field("ordinal", Number(o.ordinal as real)), Field("body_md", Str(o.bodyMd)),
         Field("is_correct", Bool(o.isCorrect)), Field("score_delta", OptionalNumber(o.scoreDelta)),
         Field("rationale_md", OptionalString(o.rationaleMd))])
  }

  function AuthorCodingSpec(s: CodingSpec): Json {
    Obj([Field("allowed_languages", Strings(s.allowedLanguages)), Field("starter_code", StarterJson(s.starterCode)),
         Field("solution_code", StarterJson(s.solutionCode)), Field("time_limit_ms", Number(s.timeLimitMs as real)),
         Field("memory_limit_kb", Number(s.memoryLimitKb as real)), Field("grading_mode", Str(s.gradingMode)),
         Field("checker_code", OptionalString(s.checkerCode)), Field("fixture_sql", OptionalString(s.fixtureSql))])
  }

  function AuthorTestCase(t: TestCase): Json {
    Obj([Field("id", Str(t.id)), Field("ordinal", Number(t.ordinal as real)), Field("label", OptionalString(t.caption)),
         Field("stdin", Str(t.stdin)), Field("expected_stdout", OptionalString(t.expectedStdout)),
         Field("args", if t.args.Some? then Strings(t.args.value) else Null),
         Field("assertion_code", OptionalString(t.assertionCode)), Field("is_sample", Bool(t.isSample)),
         Field("weight", Number(t.weight))])
  }

  function AuthorAnswerKey(k: AnswerKey): Json {
    Obj([Field("id", Str(k.id)), Field("match_type", Str(k.matchType)), Field("pattern", Str(k.pattern)),
         Field("tolerance", OptionalNumber(k.tolerance)), Field("score", Number(k.score))])
  }

  function List<T>(items: seq<T>, render: T -> Json): Json {
    Arr(seq(|items|, i requires 0 <= i < |items| => render(items[i])))
  }

  /** The fields that are not lists; instants are left as numbers. */
  function Scalars(v: Version): seq<Field> {
    [Field("id", Str(v.id)), Field("question_id", Str(v.questionId)), Field("version_no", Number(v.versionNo as real)),
     Field("locale", Str(v.locale)), Field("prompt_md", Str(v.promptMd)),
     Field("explanation_md", OptionalString(v.explanationMd)), Field("difficulty", Number(v.difficulty as real)),
     Field("est_seconds", Number(v.estSeconds as real)), Field("max_score", Number(v.maxScore)),
     Field("negative_score", Number(v.negativeScore)),
     Field("published_at", if v.publishedAt.Some? then Number(v.publishedAt.value as real) else Null),
     Field("created_by", OptionalString(v.createdBy)), Field("created_at", Number(v.createdAt as real))]
  }

  function AuthorPayload(v: Version): Json {
    Obj(Scalars(v) +
        [Field("options", List(v.options, AuthorOption)),
         Field("coding_spec", if v.codingSpec.Some? then AuthorCodingSpec(v.codingSpec.value) else Null),
         Field("test_cases", List(v.testCases, AuthorTestCase)),
         Field("answer_keys", List(v.answerKeys, AuthorAnswerKey))])
  }

  ghost predicate Reported(v: Version, steps: seq<Step>) {
    Rendered("$", steps) in Found(AuthorPayload(v), "$")
  }

  /** A listed key of an object is a way in. */
  lemma NamesHere(fields: seq<Field>, k: nat, key: string)
    requires k < |fields| && fields[k].key == key && IsAnswerKeyField(key)
    ensures Names(Obj(fields), [Key(key)])
  {
  }

  lemma NamesBelow(fields: seq<Field>, k: nat, key: string, steps: seq<Step>)
    requires k < |fields| && fields[k].key == key && Names(fields[k].value, steps)
    ensures Names(Obj(fields), [Key(key)] + steps)
  {
    assert ([Key(key)] + steps)[1..] == steps;
  }

  lemma NamesInList<T>(items: seq<T>, render: T -> Json, i: nat, key: string)
    requires i < |items| && Names(render(items[i]), [Key(key)])
    ensures Names(List(items, render), [Index(i), Key(key)])
  {
    assert [Index(i), Key(key)][1..] == [Key(key)];
  }

  lemma ReportedBelow(v: Version, k: nat, key: string, steps: seq<Step>)
    requires k < |AuthorPayload(v).fields| && AuthorPayload(v).fields[k].key == key
    requires Names(AuthorPayload(v).fields[k].value, steps)
    ensures Reported(v, [Key(key)] + steps)
  {
    NamesBelow(AuthorPayload(v).fields, k, key, steps);
    NamedIsFound(AuthorPayload(v), "$", [Key(key)] + steps);
  }

  /** The explanation and the list of answer keys are always there, and always reported. */
  lemma VersionKeysReported(v: Version)
    ensures Reported(v, [Key("explanation_md")]) && Reported(v, [Key("answer_keys")])
  {
    var fields := AuthorPayload(v).fields;
    assert fields[5].key == "explanation_md" && fields[16].key == "answer_keys";
    NamesHere(fields, 5, "explanation_md");
    NamesHere(fields, 16, "answer_keys");
    NamedIsFound(AuthorPayload(v), "$", [Key("explanation_md")]);
    NamedIsFound(AuthorPayload(v), "$", [Key("answer_keys")]);
  }

  lemma OptionKeyReported(v: Version, i: nat, k: nat, key: string)
    requires i < |v.options| && 3 <= k < 6 && AuthorOption(v.options[i]).fields[k].key == key && IsAnswerKeyField(key)
    ensures Reported(v, [Key("options")] + [Index(i), Key(key)])
  {
    NamesHere(AuthorOption(v.options[i]).fields, k, key);
    NamesInList(v.options, AuthorOption, i, key);
    ReportedBelow(v, 13, "options", [Index(i), Key(key)]);
  }

  /** Of every option: whether it is correct, what it scores and why. */
  lemma OptionsReported(v: Version, i: nat)
    requires i < |v.options|
    ensures forall key :: key in ["is_correct", "score_delta", "rationale_md"] ==>
              Reported(v, [Key("options")] + [Index(i), Key(key)])
  {
    OptionKeyReported(v, i, 3, "is_correct");
    OptionKeyReported(v, i, 4, "score_delta");
    OptionKeyReported(v, i, 5, "rationale_md");
  }

  /** Of a coding spec: the solution and the checker. */
  lemma CodingSpecReported(v: Version)
    requires v.codingSpec.Some?
    ensures Reported(v, [Key("coding_spec")] + [Key("solution_code")])
            && Reported(v, [Key("coding_spec")] + [Key("checker_code")])
  {
    var fields := AuthorCodingSpec(v.codingSpec.value).fields;
    NamesHere(fields, 2, "solution_code");
    NamesHere(fields, 6, "checker_code");
    ReportedBelow(v, 14, "coding_spec", [Key("solution_code")]);
    ReportedBelow(v, 14, "coding_spec", [Key("checker_code")]);
  }

  lemma CaseKeyReported(v: Version, i: nat, k: nat, key: string)
    requires i < |v.testCases| && k < 9 && AuthorTestCase(v.testCases[i]).fields[k].key == key && IsAnswerKeyField(key)
    ensures Reported(v, [Key("test_cases")] + [Index(i), Key(key)])
  {
    NamesHere(AuthorTestCase(v.testCases[i]).fields, k, key);
    NamesInList(v.testCases, AuthorTestCase, i, key);
    ReportedBelow(v, 15, "test_cases", [Index(i), Key(key)]);
  }

  /** Of every test case, samples included: what it expects and what it asserts. */
  lemma TestCasesReported(v: Version, i: nat)
    requires i < |v.testCases|
    ensures Reported(v, [Key("test_cases")] + [Index(i), Key("expected_stdout")])
    ensures Reported(v, [Key("test_cases")] + [Index(i), Key("assertion_code")])
  {
    CaseKeyReported(v, i, 4, "expected_stdout");
    CaseKeyReported(v, i, 6, "assertion_code");
  }

  lemma AnswerKeyReported(v: Version, i: nat, k: nat, key: string)
    requires i < |v.answerKeys| && k < 5 && AuthorAnswerKey(v.answerKeys[i]).fields[k].key == key
             && IsAnswerKeyField(key)
    ensures Reported(v, [Key("answer_keys")] + [Index(i), Key(key)])
  {
    NamesHere(AuthorAnswerKey(v.answerKeys[i]).fields, k, key);
    NamesInList(v.answerKeys, AuthorAnswerKey, i, key);
    ReportedBelow(v, 16, "answer_keys", [Index(i), Key(key)]);
  }

  /** Of every answer key: how it matches, what, and how closely. */
  lemma AnswerKeysReported(v: Version, i: nat)
    requires i < |v.answerKeys|
    ensures forall key :: key in ["match_type", "pattern", "tolerance"] ==>
              Reported(v, [Key("answer_keys")] + [Index(i), Key(key)])
  {
    AnswerKeyReported(v, i, 1, "match_type");
    AnswerKeyReported(v, i, 2, "pattern");
    AnswerKeyReported(v, i, 3, "tolerance");
  }
}

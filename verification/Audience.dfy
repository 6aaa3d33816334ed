/** The answer-key detector (packages/contracts/src/audience.ts), over JSON payloads. */
module Audience {
  /** A JSON value; an object is its entries in `Object.entries` order. */
  datatype Json =
    | Null
    | Bool(b: bool)
    | Number(n: real)
    | Str(s: string)
    | Arr(elements: seq<Json>)
    | Obj(fields: seq<Field>)

  datatype Field = Field(key: string, value: Json)

  predicate IsAnswerKeyField(key: string) {
    key in {
      "is_correct", "isCorrect", "correct_option_ids", "correctOptionIds", "answer_key", "answerKey",
      "answer_keys", "answerKeys", "score_delta", "scoreDelta", "rationale_md", "rationaleMd",
      "solution_code", "solutionCode", "checker_code", "checkerCode", "expected_stdout", "expectedStdout",
      "expected_output", "expectedOutput", "assertion_code", "assertionCode", "match_type", "matchType",
      "pattern", "tolerance", "explanation_md", "explanationMd"
    }
  }

  function Decimal(n: nat): string {
    if n < 10 then ["0123456789"[n]] else Decimal(n / 10) + ["0123456789"[n % 10]]
  }

  function AtIndex(path: string, i: nat): string {
    path + "[" + Decimal(i) + "]"
  }

  function AtKey(path: string, key: string): string {
    path + "." + key
  }

  /** The dotted paths of the listed keys, in the order a walk meets them. */
  function Found(payload: Json, path: string): seq<string>
    decreases payload, 1
  {
    match payload
    case Arr(elements) => FoundInElements(elements, path)
    case Obj(fields) => FoundInFields(fields, path)
    case _ => []
  }

  function FoundInElements(elements: seq<Json>, path: string): seq<string>
    decreases elements, 0
  {
    if elements == [] then []
    else
      var n := |elements| - 1;
      FoundInElements(elements[..n], path) + Found(elements[n], AtIndex(path, n))
  }

  function FoundInFields(fields: seq<Field>, path: string): seq<string>
    decreases fields, 0
  {
    if fields == [] then []
    else
      var n := |fields| - 1;
      var here := AtKey(path, fields[n].key);
      FoundInFields(fields[..n], path) + (if IsAnswerKeyField(fields[n].key) then [here] else [])
          + Found(fields[n].value, here)
  }

  method FindAnswerKeyFields(payload: Json, path: string) returns (found: seq<string>)
    ensures found == Found(payload, path)
    decreases payload
  {
    found := [];
    if payload.Arr? {
      for i := 0 to |payload.elements|
        invariant found == FoundInElements(payload.elements[..i], path)
      {
        assert payload.elements[..i + 1][..i] == payload.elements[..i];
        var inner := FindAnswerKeyFields(payload.elements[i], AtIndex(path, i));
        found := found + inner;
      }
      assert payload.elements[..|payload.elements|] == payload.elements;
      return;
    }
    if !payload.Obj? {
      return;
    }
    for i := 0 to |payload.fields|
      invariant found == FoundInFields(payload.fields[..i], path)
    {
      assert payload.fields[..i + 1][..i] == payload.fields[..i];
      var field := payload.fields[i];
      var here := AtKey(path, field.key);
      if IsAnswerKeyField(field.key) {
        found := found + [here];
      }
      var inner := FindAnswerKeyFields(field.value, here);
      found := found + inner;
    }
    assert payload.fields[..|payload.fields|] == payload.fields;
  }

  // ---- What the detector reports -----------------------------------------------------------

  datatype Step = Index(i: nat) | Key(key: string)

  /** Following `steps` into the payload ends at an entry whose key is listed. */
  ghost predicate Names(payload: Json, steps: seq<Step>)
    decreases payload
  {
    && steps != []
    && match (payload, steps[0])
       case (Arr(elements), Index(i)) => i < |elements| && Names(elements[i], steps[1..])
       case (Obj(fields), Key(key)) =>
         exists k :: 0 <= k < |fields| && fields[k].key == key &&
                     ((|steps| == 1 && IsAnswerKeyField(key)) || Names(fields[k].value, steps[1..]))
       case _ => false
  }

  function Rendered(path: string, steps: seq<Step>): string
    decreases steps
  {
    if steps == [] then path
    else Rendered(match steps[0] case Index(i) => AtIndex(path, i) case Key(key) => AtKey(path, key), steps[1..])
  }

  lemma {:induction false} ElementFound(elements: seq<Json>, path: string, p: string, i: nat)
    requires i < |elements| && p in Found(elements[i], AtIndex(path, i))
    ensures p in FoundInElements(elements, path)
  {
    var n := |elements| - 1;
    if i < n {
      ElementFound(elements[..n], path, p, i);
    }
  }

  lemma {:induction false} ElementOf(elements: seq<Json>, path: string, p: string) returns (i: nat)
    requires p in FoundInElements(elements, path)
    ensures i < |elements| && p in Found(elements[i], AtIndex(path, i))
  {
    var n := |elements| - 1;
    if p in Found(elements[n], AtIndex(path, n)) {
      i := n;
    } else {
      i := ElementOf(elements[..n], path, p);
    }
  }

  ghost predicate InField(field: Field, path: string, p: string) {
    || (IsAnswerKeyField(field.key) && p == AtKey(path, field.key))
    || p in Found(field.value, AtKey(path, field.key))
  }

  lemma {:induction false} InFields(fields: seq<Field>, path: string, p: string)
    ensures p in FoundInFields(fields, path) <==> exists i :: 0 <= i < |fields| && InField(fields[i], path, p)
  {
    if fields != [] {
      var n := |fields| - 1;
      InFields(fields[..n], path, p);
      assert forall i :: 0 <= i < n ==> fields[..n][i] == fields[i];
    }
  }

  /** Nothing listed is missed: every way into the payload that names a listed key is reported. */
  lemma {:induction false} NamedIsFound(payload: Json, path: string, steps: seq<Step>)
    requires Names(payload, steps)
    ensures Rendered(path, steps) in Found(payload, path)
    decreases payload
  {
    var p := Rendered(path, steps);
    match (payload, steps[0])
    case (Arr(elements), Index(i)) =>
      NamedIsFound(elements[i], AtIndex(path, i), steps[1..]);
      ElementFound(elements, path, p, i);
    case (Obj(fields), Key(key)) =>
      var k :| 0 <= k < |fields| && fields[k].key == key &&
               ((|steps| == 1 && IsAnswerKeyField(key)) || Names(fields[k].value, steps[1..]));
      if Names(fields[k].value, steps[1..]) {
        NamedIsFound(fields[k].value, AtKey(path, key), steps[1..]);
      } else {
        assert Rendered(AtKey(path, key), steps[1..]) == AtKey(path, key);
      }
      assert InField(fields[k], path, p);
      InFields(fields, path, p);
  }

  /** Nothing else is reported: every reported path leads to a listed key. */
  lemma {:induction false} FoundIsNamed(payload: Json, path: string, p: string) returns (steps: seq<Step>)
    requires p in Found(payload, path)
    ensures Names(payload, steps) && Rendered(path, steps) == p
    decreases payload
  {
    match payload
    case Arr(elements) =>
      var i := ElementOf(elements, path, p);
      var rest := FoundIsNamed(elements[i], AtIndex(path, i), p);
      steps := [Index(i)] + rest;
    case Obj(fields) =>
      InFields(fields, path, p);
      var k :| 0 <= k < |fields| && InField(fields[k], path, p);
      var key := fields[k].key;
      if IsAnswerKeyField(key) && p == AtKey(path, key) {
        steps := [Key(key)];
        assert steps[1..] == [];
      } else {
        var rest := FoundIsNamed(fields[k].value, AtKey(path, key), p);
        steps := [Key(key)] + rest;
        assert steps[1..] == rest;
      }
  }

  /** No listed key occurs at any depth. */
  predicate Clean(payload: Json) {
    match payload
    case Arr(elements) => forall i :: 0 <= i < |elements| ==> Clean(elements[i])
    case Obj(fields) => forall i :: 0 <= i < |fields| ==> !IsAnswerKeyField(fields[i].key) && Clean(fields[i].value)
    case _ => true
  }

  /** The detector returns nothing exactly when nothing listed is there. */
  lemma {:induction false} EmptyIffClean(payload: Json, path: string)
    ensures Found(payload, path) == [] <==> Clean(payload)
    decreases payload, 1
  {
    match payload
    case Arr(elements) => ElementsEmptyIff(elements, path);
    case Obj(fields) => FieldsEmptyIff(fields, path);
    case _ =>
  }

  lemma {:induction false} ElementsEmptyIff(elements: seq<Json>, path: string)
    ensures FoundInElements(elements, path) == [] <==> forall i :: 0 <= i < |elements| ==> Clean(elements[i])
    decreases elements, 0
  {
    if elements != [] {
      var n := |elements| - 1;
      ElementsEmptyIff(elements[..n], path);
      EmptyIffClean(elements[n], AtIndex(path, n));
      assert forall i :: 0 <= i < n ==> elements[..n][i] == elements[i];
    }
  }

  lemma {:induction false} FieldsEmptyIff(fields: seq<Field>, path: string)
    ensures FoundInFields(fields, path) == []
       <==> forall i :: 0 <= i < |fields| ==> !IsAnswerKeyField(fields[i].key) && Clean(fields[i].value)
    decreases fields, 0
  {
    if fields != [] {
      var n := |fields| - 1;
      FieldsEmptyIff(fields[..n], path);
      EmptyIffClean(fields[n].value, AtKey(path, fields[n].key));
      assert forall i :: 0 <= i < n ==> fields[..n][i] == fields[i];
    }
  }

  // ---- The names and the paths, spelled out ---------------------------------------------------

  /** The names an answer key goes by, in either spelling. */
  predicate IsBoundaryName(name: string) {
    || name in ["is_correct", "isCorrect", "correct_option_ids", "correctOptionIds", "answer_key", "answerKey"]
    || name in ["answer_keys", "answerKeys", "score_delta", "scoreDelta", "rationale_md", "rationaleMd"]
    || name in ["solution_code", "solutionCode", "checker_code", "checkerCode", "expected_stdout", "expectedStdout"]
    || name in ["expected_output", "expectedOutput", "assertion_code", "assertionCode", "match_type", "matchType"]
    || name in ["pattern", "tolerance", "explanation_md", "explanationMd"]
  }

  lemma BoundaryNamesAreListed(name: string)
    ensures IsBoundaryName(name) <==> IsAnswerKeyField(name)
  {
  }

  /** A boundary name is reported where it stands, whatever its value, and a scalar under any other name is not. */
  lemma BoundaryNamesAreReported(name: string, value: Json)
    ensures IsBoundaryName(name) ==> "$." + name in Found(Obj([Field(name, value)]), "$")
    ensures !IsBoundaryName(name) && !value.Arr? && !value.Obj? ==> Found(Obj([Field(name, value)]), "$") == []
  {
    BoundaryNamesAreListed(name);
    var fields := [Field(name, value)];
    assert fields[..0] == [];
    assert FoundInFields(fields, "$") == [] + Here(fields[0], "$") + Found(value, AtKey("$", name));
    assert AtKey("$", name) == "$." + name;
  }

  /** Paths are written as they would be in ECMAScript, and reported in the order of a walk. */
  lemma PathsAreReadable(value: Json)
    requires !value.Arr? && !value.Obj?
    ensures Found(Arr([Null, Obj([Field("body", value), Field("pattern", value)])]), "$") == ["$[1].pattern"]
    ensures Found(Obj([Field("pattern", value), Field("tolerance", value)]), "$") == ["$.pattern", "$.tolerance"]
  {
    TwoFields(Field("body", value), Field("pattern", value), "$[1]");
    TwoFields(Field("pattern", value), Field("tolerance", value), "$");
    SecondElement(Obj([Field("body", value), Field("pattern", value)]), "$");
    assert Decimal(1) == "1" && AtIndex("$", 1) == "$[1]";
    assert AtKey("$[1]", "pattern") == "$[1].pattern";
    assert AtKey("$", "pattern") == "$.pattern" && AtKey("$", "tolerance") == "$.tolerance";
  }

  function Here(f: Field, path: string): seq<string> {
    if IsAnswerKeyField(f.key) then [AtKey(path, f.key)] else []
  }

  lemma TwoFields(a: Field, b: Field, path: string)
    requires !a.value.Arr? && !a.value.Obj? && !b.value.Arr? && !b.value.Obj?
    ensures Found(Obj([a, b]), path) == Here(a, path) + Here(b, path)
  {
    assert [a, b][..1] == [a] && [a][..0] == [];
    assert FoundInFields([a], path) == [] + Here(a, path) + [];
    assert FoundInFields([a, b], path) == FoundInFields([a], path) + Here(b, path) + [];
  }

  lemma SecondElement(x: Json, path: string)
    ensures Found(Arr([Null, x]), path) == Found(x, AtIndex(path, 1))
  {
    assert [Null, x][..1] == [Null] && [Null][..0] == [];
    assert FoundInElements([Null], path) == [] + [];
  }

  function DigitValue(c: char): int {
    c as int - '0' as int
  }

  /** The number a string of decimal digits denotes. */
  function DecimalValue(s: string): int {
    if s == [] then 0 else 10 * DecimalValue(s[..|s| - 1]) + DigitValue(s[|s| - 1])
  }

  /** An index is written in decimal, without leading zeros. */
  lemma {:induction false} IndicesAreDecimal(n: nat)
    ensures DecimalValue(Decimal(n)) == n && |Decimal(n)| >= 1
    ensures forall i :: 0 <= i < |Decimal(n)| ==> '0' <= Decimal(n)[i] <= '9'
    ensures n > 0 ==> Decimal(n)[0] != '0'
  {
    var digits := "0123456789";
    assert forall k :: 0 <= k < 10 ==> DigitValue(digits[k]) == k;
    if n < 10 {
      assert Decimal(n)[..0] == [];
    } else {
      IndicesAreDecimal(n / 10);
      assert Decimal(n)[..|Decimal(n)| - 1] == Decimal(n / 10);
    }
  }
}

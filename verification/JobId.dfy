/** Business keys and the BullMQ job ids made from them (apps/worker/src/idempotency.ts). */
module JobId {
  import opened Prelude

  const MAX_IDEMPOTENCY_KEY_CHARS := 512

  datatype KeyError = EmptyKey | KeyTooLong | KeyHasWhitespace | KeyHasMissingSegment

  /** `String.prototype.split` on one character: never empty, joined back by that character. */
  function Split(s: string, sep: char): (parts: seq<string>)
    ensures parts != []
  {
    if s == [] then [[]]
    else
      var rest := Split(s[1..], sep);
      if s[0] == sep then [[]] + rest else [[s[0]] + rest[0]] + rest[1..]
  }

  predicate HasWhitespace(s: string) {
    exists i :: 0 <= i < |s| && IsWhitespace(s[i])
  }

  function AssertBusinessKey(key: string): Result<string, KeyError> {
    if |key| == 0 then Err(EmptyKey)
    else if |key| > MAX_IDEMPOTENCY_KEY_CHARS then Err(KeyTooLong)
    else if HasWhitespace(key) then Err(KeyHasWhitespace)
    else if "undefined" in Split(key, ':') || "null" in Split(key, ':') then Err(KeyHasMissingSegment)
    else Ok(key)
  }

  /** `replaceAll` of one character by a string. */
  function ReplaceAll(s: string, c: char, with: string): string {
    if s == [] then [] else (if s[0] == c then with else [s[0]]) + ReplaceAll(s[1..], c, with)
  }

  function Encoded(key: string): string {
    ReplaceAll(ReplaceAll(key, '%', "%25"), ':', "%3A")
  }

  function ToJobId(key: string): Result<string, KeyError> {
    match AssertBusinessKey(key)
    case Err(e) => Err(e)
    case Ok(k) => Ok(Encoded(k))
  }

  // ---- The two passes are one reversible escape ------------------------------------------------

  function EscapeChar(c: char): string {
    if c == '%' then "%25" else if c == ':' then "%3A" else [c]
  }

  function Escape(s: string): string {
    if s == [] then [] else EscapeChar(s[0]) + Escape(s[1..])
  }

  function Unescape(s: string): string {
    if s == [] then []
    else if s[0] == '%' && |s| >= 3 then [if s[1] == '2' then '%' else ':'] + Unescape(s[3..])
    else [s[0]] + Unescape(s[1..])
  }

  lemma {:induction false} ReplaceAllConcat(s: string, t: string, c: char, with: string)
    ensures ReplaceAll(s + t, c, with) == ReplaceAll(s, c, with) + ReplaceAll(t, c, with)
  {
    if s == [] {
      assert s + t == t;
    } else {
      assert (s + t)[1..] == s[1..] + t;
      ReplaceAllConcat(s[1..], t, c, with);
    }
  }

  lemma {:induction false} TwoPassesAreOneEscape(s: string)
    ensures Encoded(s) == Escape(s)
  {
    if s != [] {
      var first := if s[0] == '%' then "%25" else [s[0]];
      ReplaceAllConcat(first, ReplaceAll(s[1..], '%', "%25"), ':', "%3A");
      TwoPassesAreOneEscape(s[1..]);
      EscapeOfFirst(s[0]);
    }
  }

  lemma EscapeOfFirst(c: char)
    ensures ReplaceAll(if c == '%' then "%25" else [c], ':', "%3A") == EscapeChar(c)
  {
    if c == '%' {
      assert "%25"[1..] == "25" && "25"[1..] == "5" && "5"[1..] == "";
      assert ReplaceAll("5", ':', "%3A") == "5" + "";
      assert ReplaceAll("25", ':', "%3A") == "2" + "5";
      assert ReplaceAll("%25", ':', "%3A") == "%" + "25";
    } else {
      assert [c][1..] == [];
    }
  }

  lemma {:induction false} UnescapeInverts(s: string)
    ensures Unescape(Escape(s)) == s
  {
    if s != [] {
      UnescapeInverts(s[1..]);
      assert Escape(s)[|EscapeChar(s[0])|..] == Escape(s[1..]);
      assert s == [s[0]] + s[1..];
    }
  }

  lemma {:induction false} EscapeHasNoColon(s: string)
    ensures ':' !in Escape(s)
  {
    if s != [] {
      EscapeHasNoColon(s[1..]);
    }
  }

  /** A job id is accepted by BullMQ, and the key can be read back from it. */
  lemma JobIdIsReversible(key: string)
    requires AssertBusinessKey(key).Ok?
    ensures ToJobId(key).Ok? && ':' !in ToJobId(key).value && Unescape(ToJobId(key).value) == key
  {
    TwoPassesAreOneEscape(key);
    UnescapeInverts(key);
    EscapeHasNoColon(key);
  }

  /** Two accepted keys never share a job id. */
  lemma JobIdIsInjective(a: string, b: string)
    requires ToJobId(a).Ok? && ToJobId(a) == ToJobId(b)
    ensures a == b
  {
    JobIdIsReversible(a);
    JobIdIsReversible(b);
  }

  /** The passes in the other order: the colon first. */
  function Swapped(s: string): string {
    ReplaceAll(ReplaceAll(s, ':', "%3A"), '%', "%25")
  }

  /**
   The order of the passes matters: the other way round `a:b` and `a%3Ab` both become `a%253Ab`, for
   any plain a and b.
   */
  lemma SwappedPassesCollide(a: string, b: string)
    requires ':' !in a + b && '%' !in a + b
    ensures Swapped(a + ":" + b) == a + "%253A" + b
    ensures Swapped(a + "%3A" + b) == a + "%253A" + b
  {
    ReplaceBetween(a, ':', b, "%3A");
    NothingToReplace(a + "%3A" + b, ':', "%3A");
    EscapedPercent(a, b);
  }

  lemma EscapedPercent(a: string, b: string)
    requires '%' !in a + b
    ensures ReplaceAll(a + "%3A" + b, '%', "%25") == a + "%253A" + b
  {
    var tail := "3A" + b;
    ReplaceBetween(a, '%', tail, "%25");
    assert a + "%3A" + b == a + ['%'] + tail;
    assert a + "%253A" + b == a + "%25" + tail;
  }

  lemma ReplaceBetween(s: string, c: char, t: string, with: string)
    requires c !in s && c !in t
    ensures ReplaceAll(s + [c] + t, c, with) == s + with + t
  {
    ReplaceAllConcat(s + [c], t, c, with);
    ReplaceAllConcat(s, [c], c, with);
    NothingToReplace(s, c, with);
    NothingToReplace(t, c, with);
    ReplaceOne(c, with);
  }

  lemma ReplaceOne(c: char, with: string)
    ensures ReplaceAll([c], c, with) == with
  {
    assert [c][1..] == [];
  }

  lemma {:induction false} NothingToReplace(s: string, c: char, with: string)
    requires c !in s
    ensures ReplaceAll(s, c, with) == s
  {
    if s != [] {
      NothingToReplace(s[1..], c, with);
      assert s == [s[0]] + s[1..];
    }
  }

  // ---- Which keys are accepted -----------------------------------------------------------------

  /** Where the segment that starts at `i` ends: at the next separator, or with the string. */
  function End(s: string, sep: char, i: nat): (j: nat)
    requires i <= |s|
    ensures i <= j <= |s| && sep !in s[i..j] && (j < |s| ==> s[j] == sep)
    decreases |s| - i
  {
    if i == |s| || s[i] == sep then i else End(s, sep, i + 1)
  }

  /** `x` is what stands between two separators, or a separator and an end of the string. */
  ghost predicate IsSegment(s: string, sep: char, i: nat, x: string) {
    i <= |s| && (i == 0 || s[i - 1] == sep) && x == s[i..End(s, sep, i)]
  }

  lemma {:induction false} EndCons(c: char, t: string, sep: char, i: nat)
    requires i <= |t|
    ensures End([c] + t, sep, i + 1) == End(t, sep, i) + 1
    decreases |t| - i
  {
    if i < |t| && t[i] != sep {
      EndCons(c, t, sep, i + 1);
    }
  }

  lemma SegmentCons(c: char, t: string, sep: char, i: nat, x: string)
    requires i <= |t|
    ensures x == ([c] + t)[i + 1..End([c] + t, sep, i + 1)] <==> x == t[i..End(t, sep, i)]
  {
    EndCons(c, t, sep, i);
    assert ([c] + t)[i + 1..End(t, sep, i) + 1] == t[i..End(t, sep, i)];
  }

  lemma {:induction false} FirstSegment(s: string, sep: char)
    ensures Split(s, sep)[0] == s[..End(s, sep, 0)]
  {
    if s != [] && s[0] != sep {
      FirstSegment(s[1..], sep);
      assert s == [s[0]] + s[1..];
      EndCons(s[0], s[1..], sep, 0);
    }
  }

  /** `split` yields exactly the segments. */
  lemma {:induction false} SplitIs(s: string, sep: char, x: string)
    ensures x in Split(s, sep) <==> exists i :: IsSegment(s, sep, i, x)
    ensures x in Split(s, sep)[1..] <==> exists i :: i > 0 && IsSegment(s, sep, i, x)
    decreases |s|, 1
  {
    FirstSegment(s, sep);
    assert x == Split(s, sep)[0] <==> IsSegment(s, sep, 0, x);
    if s != [] {
      TailSegments(s[0], s[1..], sep, x);
      assert s == [s[0]] + s[1..];
    }
    assert forall i :: 1 <= i < |Split(s, sep)| ==> Split(s, sep)[i] == Split(s, sep)[1..][i - 1];
  }

  lemma SegmentUp(c: char, t: string, sep: char, i: nat, x: string)
    requires IsSegment(t, sep, i, x) && (i > 0 || c == sep)
    ensures IsSegment([c] + t, sep, i + 1, x)
  {
    SegmentCons(c, t, sep, i, x);
  }

  lemma SegmentDown(c: char, t: string, sep: char, i: nat, x: string)
    requires i > 0 && IsSegment([c] + t, sep, i, x)
    ensures IsSegment(t, sep, i - 1, x) && (i == 1 ==> c == sep)
  {
    SegmentCons(c, t, sep, i - 1, x);
  }

  lemma SplitTail(c: char, t: string, sep: char, x: string)
    ensures x in Split([c] + t, sep)[1..]
       <==> x in Split(t, sep)[1..] || (c == sep && x == Split(t, sep)[0])
  {
    assert ([c] + t)[1..] == t;
    assert Split(t, sep) == [Split(t, sep)[0]] + Split(t, sep)[1..];
  }

  lemma {:induction false} TailSegments(c: char, t: string, sep: char, x: string)
    ensures x in Split([c] + t, sep)[1..] <==> exists i :: i > 0 && IsSegment([c] + t, sep, i, x)
    decreases |t|, 2
  {
    SplitTail(c, t, sep, x);
    SplitIs(t, sep, x);
    FirstSegment(t, sep);
    assert x == Split(t, sep)[0] <==> IsSegment(t, sep, 0, x);
    if i :| IsSegment(t, sep, i, x) && (i > 0 || c == sep) {
      SegmentUp(c, t, sep, i, x);
    }
    if i :| i > 0 && IsSegment([c] + t, sep, i, x) {
      SegmentDown(c, t, sep, i, x);
    }
  }

  /** A key is accepted exactly when it is short, has no blank, and no segment stands for a missing identifier. */
  lemma AcceptedKeysAre(key: string)
    ensures AssertBusinessKey(key).Ok? <==>
              && 1 <= |key| <= 512
              && (forall i :: 0 <= i < |key| ==> !IsWhitespace(key[i]))
              && (forall i :: !IsSegment(key, ':', i, "undefined") && !IsSegment(key, ':', i, "null"))
    ensures AssertBusinessKey(key).Ok? ==> AssertBusinessKey(key).value == key
  {
    SplitIs(key, ':', "undefined");
    SplitIs(key, ':', "null");
  }
}

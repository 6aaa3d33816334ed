/**
 The y-websocket wire format (apps/collab/src/protocol.ts): base-128 integers, length-prefixed
 byte strings, and the frames built from them.
 */
module Codec {
  import opened Prelude

  type Byte = x: int | 0 <= x < 256
  type Bytes = seq<Byte>

  const BITS_7 := 127
  const BIT_8 := 128
  const BASE := 128
  const MAX_SAFE_INTEGER := 9007199254740991

  const MESSAGE_SYNC := 0
  const MESSAGE_AWARENESS := 1
  const MESSAGE_QUERY_AWARENESS := 3
  const SYNC_STEP_1 := 0
  const SYNC_STEP_2 := 1
  const SYNC_UPDATE := 2

  datatype ProtocolError =
    | UnsafeInteger
    | EndedInsideVarUint
    | ExceedsSafeRange
    | LengthOverrun
    | UnknownSyncStep

  datatype Frame =
    | SyncStep1(stateVector: Bytes)
    | SyncStep2(update: Bytes)
    | SyncUpdate(update: Bytes)
    | Awareness(payload: Bytes)
    | QueryAwareness
    | Ignored(messageType: nat)

  // ---- Writing -----------------------------------------------------------------------

  /** The base-128 form of `n`, least significant group first. */
  function VarUint(n: nat): Bytes {
    if n < BASE then [n] else [BIT_8 + n % BASE] + VarUint(n / BASE)
  }

  predicate IsNonNegativeSafe(value: Num) {
    value.IsInteger() && 0.0 <= value.v <= MAX_SAFE_INTEGER as real
  }

  method WriteVarUint(value: Num) returns (r: Result<Bytes, ProtocolError>)
    ensures r == if IsNonNegativeSafe(value) then Ok(VarUint(value.v.Floor)) else Err(UnsafeInteger)
  {
    if !IsNonNegativeSafe(value) {
      return Err(UnsafeInteger);
    }
    var bytes: Bytes := [];
    var remaining: nat := value.v.Floor;
    while remaining > BITS_7
      invariant bytes + VarUint(remaining) == VarUint(value.v.Floor)
    {
      bytes := bytes + [BIT_8 + remaining % BASE];
      remaining := remaining / BASE;
    }
    return Ok(bytes + [remaining]);
  }

  function Flatten(parts: seq<Bytes>): Bytes {
    if parts == [] then [] else Flatten(parts[..|parts| - 1]) + parts[|parts| - 1]
  }

  /** Two passes, as the source makes them: measure, then copy each part at its offset. */
  method ConcatBytes(parts: seq<Bytes>) returns (out: array<Byte>)
    ensures fresh(out)
    ensures out[..] == Flatten(parts)
  {
    var total := 0;
    for i := 0 to |parts|
      invariant total == |Flatten(parts[..i])|
    {
      assert parts[..i + 1][..i] == parts[..i];
      total := total + |parts[i]|;
    }
    assert parts[..|parts|] == parts;
    out := new Byte[total];
    var offset := 0;
    for i := 0 to |parts|
      invariant fresh(out) && out.Length == total
      invariant offset == |Flatten(parts[..i])| <= total
      invariant out[..offset] == Flatten(parts[..i])
    {
      assert parts[..i + 1][..i] == parts[..i];
      FlattenPrefixFits(parts, i + 1);
      var part, start := parts[i], offset;
      forall j | 0 <= j < |part| {
        out[start + j] := part[j];
      }
      offset := offset + |part|;
      assert out[..offset] == out[..start] + part;
    }
    assert out[..offset] == out[..];
  }

  lemma {:induction false} FlattenPrefixFits(parts: seq<Bytes>, i: nat)
    requires i <= |parts|
    ensures |Flatten(parts[..i])| <= |Flatten(parts)|
    decreases |parts| - i
  {
    if i == |parts| {
      assert parts[..i] == parts;
    } else {
      assert parts[..i + 1][..i] == parts[..i];
      FlattenPrefixFits(parts, i + 1);
    }
  }

  function VarBytes(bytes: Bytes): Bytes {
    VarUint(|bytes|) + bytes
  }

  /** The bytes of a frame this service sends. */
  function Encoding(f: Frame): Bytes
    requires Encodable(f)
  {
    match f
    case SyncStep1(sv) => VarUint(MESSAGE_SYNC) + VarUint(SYNC_STEP_1) + VarBytes(sv)
    case SyncStep2(u) => VarUint(MESSAGE_SYNC) + VarUint(SYNC_STEP_2) + VarBytes(u)
    case SyncUpdate(u) => VarUint(MESSAGE_SYNC) + VarUint(SYNC_UPDATE) + VarBytes(u)
    case Awareness(p) => VarUint(MESSAGE_AWARENESS) + VarBytes(p)
  }

  predicate Encodable(f: Frame) {
    !f.QueryAwareness? && !f.Ignored?
  }

  function Payload(f: Frame): Bytes
    requires Encodable(f)
  {
    match f
    case SyncStep1(sv) => sv
    case SyncStep2(u) => u
    case SyncUpdate(u) => u
    case Awareness(p) => p
  }

  /** The four encoders; a payload whose length is not a safe integer is refused. */
  method EncodeFrame(f: Frame) returns (r: Result<Bytes, ProtocolError>)
    requires Encodable(f)
    ensures r == if |Payload(f)| <= MAX_SAFE_INTEGER then Ok(Encoding(f)) else Err(UnsafeInteger)
  {
    var payload := Payload(f);
    var prefix := WriteVarUint(Int(|payload|));
    if prefix.Err? {
      return Err(prefix.error);
    }
    var sized := ConcatBytes([prefix.value, payload]);
    FlattenTwo(prefix.value, payload);
    var tag := WriteVarUint(Int(if f.Awareness? then MESSAGE_AWARENESS else MESSAGE_SYNC));
    if f.Awareness? {
      var out := ConcatBytes([tag.value, sized[..]]);
      FlattenTwo(tag.value, sized[..]);
      return Ok(out[..]);
    }
    var step := WriteVarUint(Int(if f.SyncStep1? then SYNC_STEP_1
                                 else if f.SyncStep2? then SYNC_STEP_2
                                 else SYNC_UPDATE));
    var out := ConcatBytes([tag.value, step.value, sized[..]]);
    FlattenThree(tag.value, step.value, sized[..]);
    return Ok(out[..]);
  }

  lemma FlattenTwo(a: Bytes, b: Bytes)
    ensures Flatten([a, b]) == a + b
  {
    assert [a][..0] == [] && Flatten([a]) == [] + a;
    assert [a, b][..1] == [a];
  }

  lemma FlattenThree(a: Bytes, b: Bytes, c: Bytes)
    ensures Flatten([a, b, c]) == a + b + c
  {
    assert [a, b, c][..2] == [a, b];
    FlattenTwo(a, b);
  }

  // ---- Reading -----------------------------------------------------------------------

  /** The index of the first byte at or after `pos` without its continuation bit, or the length. */
  function Terminator(bytes: Bytes, pos: nat): (e: nat)
    requires pos <= |bytes|
    ensures pos <= e <= |bytes|
    ensures forall i :: pos <= i < e ==> bytes[i] >= BIT_8
    ensures e < |bytes| ==> bytes[e] < BIT_8
    decreases |bytes| - pos
  {
    if pos == |bytes| || bytes[pos] < BIT_8 then pos else Terminator(bytes, pos + 1)
  }

  function Pow128(k: nat): (p: nat)
    ensures p >= 1
  {
    if k == 0 then 1 else BASE * Pow128(k - 1)
  }

  /** The number a run of groups denotes: the sum of `(byte mod 128) * 128^i`. */
  function GroupsValue(groups: Bytes): nat {
    if groups == [] then 0
    else GroupsValue(groups[..|groups| - 1]) + groups[|groups| - 1] % BASE * Pow128(|groups| - 1)
  }

  /** What a read produced, with the cursor it leaves behind in either case. */
  datatype Read<+T> = Got(value: T, next: nat) | Failed(error: ProtocolError, at: nat)

  /** At most eight groups, ended by a byte below 128, whose value is a safe integer. */
  function VarUintAt(bytes: Bytes, pos: nat): Read<nat>
    requires pos <= |bytes|
  {
    var e := Terminator(bytes, pos);
    if e - pos >= 8 then Failed(ExceedsSafeRange, pos + 8)
    else if e == |bytes| then Failed(EndedInsideVarUint, e)
    else
      var value := GroupsValue(bytes[pos..e + 1]);
      if value <= MAX_SAFE_INTEGER then Got(value, e + 1) else Failed(ExceedsSafeRange, e + 1)
  }

  function VarBytesAt(bytes: Bytes, pos: nat): Read<Bytes>
    requires pos <= |bytes|
  {
    match VarUintAt(bytes, pos)
    case Failed(error, at) => Failed(error, at)
    case Got(length, next) =>
      if length > |bytes| - next then Failed(LengthOverrun, next)
      else Got(bytes[next..next + length], next + length)
  }

  class FrameReader {
    const bytes: Bytes
    var position: nat

    ghost predicate Valid()
      reads this
    {
      position <= |bytes|
    }

    constructor (bytes: Bytes)
      ensures Valid() && this.bytes == bytes && position == 0
    {
      this.bytes := bytes;
      position := 0;
    }

    method ReadVarUint() returns (r: Result<nat, ProtocolError>)
      requires Valid()
      modifies this`position
      ensures Valid()
      ensures old(position) <= position <= old(position) + 8
      ensures match VarUintAt(bytes, old(position))
              case Got(value, next) => r == Ok(value) && position == next
              case Failed(error, at) => r == Err(error) && position == at
    {
      ghost var start := position;
      ghost var e := Terminator(bytes, start);
      var value, multiplier := 0, 1;
      while true
        invariant start <= position <= e <= |bytes| && position - start < 8
        invariant value == GroupsValue(bytes[start..position])
        invariant multiplier == Pow128(position - start)
        decreases |bytes| - position
      {
        if position == |bytes| {
          return Err(EndedInsideVarUint);
        }
        var byte := bytes[position];
        position := position + 1;
        NextGroup(bytes, start, position - 1);
        value := value + byte % BASE * multiplier;
        if byte < BIT_8 {
          assert e == position - 1;
          if value > MAX_SAFE_INTEGER {
            return Err(ExceedsSafeRange);
          }
          return Ok(value);
        }
        multiplier := multiplier * BASE;
        EighthPowerIsFirstUnsafe(position - start);
        if multiplier > MAX_SAFE_INTEGER {
          assert position - start == 8 <= e - start;
          return Err(ExceedsSafeRange);
        }
      }
    }

    method ReadVarUint8Array() returns (r: Result<Bytes, ProtocolError>)
      requires Valid()
      modifies this`position
      ensures Valid()
      ensures match VarBytesAt(bytes, old(position))
              case Got(value, next) => r == Ok(value) && position == next
              case Failed(error, at) => r == Err(error) && position == at
    {
      var length := ReadVarUint();
      if length.Err? {
        return Err(length.error);
      }
      if length.value > |bytes| - position {
        return Err(LengthOverrun);
      }
      r := Ok(bytes[position..position + length.value]);
      position := position + length.value;
    }
  }

  lemma NextGroup(bytes: Bytes, start: nat, pos: nat)
    requires start <= pos < |bytes|
    ensures GroupsValue(bytes[start..pos + 1]) ==
            GroupsValue(bytes[start..pos]) + bytes[pos] % BASE * Pow128(pos - start)
    ensures Pow128(pos + 1 - start) == Pow128(pos - start) * BASE
  {
    assert bytes[start..pos + 1][..pos - start] == bytes[start..pos];
  }

  lemma EighthPowerIsFirstUnsafe(k: nat)
    requires 1 <= k <= 8
    ensures Pow128(k) > MAX_SAFE_INTEGER <==> k == 8
  {
    assert Pow128(2) == 16384;
    assert Pow128(4) == BASE * (BASE * Pow128(2));
    assert Pow128(6) == BASE * (BASE * Pow128(4));
    assert Pow128(8) == BASE * (BASE * Pow128(6));
    assert Pow128(3) == BASE * Pow128(2) && Pow128(5) == BASE * Pow128(4) && Pow128(7) == BASE * Pow128(6);
  }

  /** The whole parse of an inbound frame. Bytes after the frame are not looked at. */
  function Decode(bytes: Bytes): Result<Frame, ProtocolError> {
    match VarUintAt(bytes, 0)
    case Failed(error, _) => Err(error)
    case Got(messageType, next) =>
      if messageType == MESSAGE_SYNC then
        match VarUintAt(bytes, next)
        case Failed(error, _) => Err(error)
        case Got(step, after) =>
          if step > SYNC_UPDATE then Err(UnknownSyncStep)
          else
            match VarBytesAt(bytes, after)
            case Failed(error, _) => Err(error)
            case Got(payload, _) =>
              Ok(if step == SYNC_STEP_1 then SyncStep1(payload)
                 else if step == SYNC_STEP_2 then SyncStep2(payload)
                 else SyncUpdate(payload))
      else if messageType == MESSAGE_AWARENESS then
        match VarBytesAt(bytes, next)
        case Failed(error, _) => Err(error)
        case Got(payload, _) => Ok(Awareness(payload))
      else if messageType == MESSAGE_QUERY_AWARENESS then Ok(QueryAwareness)
      else Ok(Ignored(messageType))
  }

  method DecodeFrame(bytes: Bytes) returns (r: Result<Frame, ProtocolError>)
    ensures r == Decode(bytes)
  {
    var reader := new FrameReader(bytes);
    var messageType := reader.ReadVarUint();
    if messageType.Err? {
      return Err(messageType.error);
    }
    if messageType.value == MESSAGE_SYNC {
      var step := reader.ReadVarUint();
      if step.Err? {
        return Err(step.error);
      }
      if step.value > SYNC_UPDATE {
        return Err(UnknownSyncStep);
      }
      var payload := reader.ReadVarUint8Array();
      if payload.Err? {
        return Err(payload.error);
      }
      return Ok(if step.value == SYNC_STEP_1 then SyncStep1(payload.value)
                else if step.value == SYNC_STEP_2 then SyncStep2(payload.value)
                else SyncUpdate(payload.value));
    }
    if messageType.value == MESSAGE_AWARENESS {
      var payload := reader.ReadVarUint8Array();
      if payload.Err? {
        return Err(payload.error);
      }
      return Ok(Awareness(payload.value));
    }
    return Ok(if messageType.value == MESSAGE_QUERY_AWARENESS then QueryAwareness
              else Ignored(messageType.value));
  }

  // ---- The codec laws ----------------------------------------------------------------

  /** A number below `128^k` is written in at most `k` groups. */
  lemma {:induction false} VarUintLength(n: nat, k: nat)
    requires 1 <= k && n < Pow128(k)
    ensures |VarUint(n)| <= k
  {
    if n >= BASE {
      assert k > 1 by {
        assert Pow128(1) == BASE * Pow128(0);
      }
      VarUintLength(n / BASE, k - 1);
    }
  }

  /** Every group but the last carries the continuation bit. */
  lemma {:induction false} VarUintShape(n: nat)
    ensures |VarUint(n)| >= 1 && VarUint(n)[|VarUint(n)| - 1] < BIT_8
    ensures forall i :: 0 <= i < |VarUint(n)| - 1 ==> VarUint(n)[i] >= BIT_8
  {
    if n >= BASE {
      VarUintShape(n / BASE);
    }
  }

  lemma {:induction false} GroupsValueCons(b: Byte, rest: Bytes)
    ensures GroupsValue([b] + rest) == b % BASE + BASE * GroupsValue(rest)
  {
    if rest == [] {
      assert ([b] + rest)[..0] == [];
      assert [b] + rest == [b];
      assert Pow128(0) == 1;
    } else {
      var k := |rest| - 1;
      assert ([b] + rest)[..k + 1] == [b] + rest[..k];
      GroupsValueCons(b, rest[..k]);
      var d, p := rest[k] % BASE, Pow128(k);
      assert d * (BASE * p) == BASE * (d * p);
    }
  }

  lemma {:induction false} VarUintValue(n: nat)
    ensures GroupsValue(VarUint(n)) == n
  {
    if n < BASE {
      assert VarUint(n) == [n] + [];
      GroupsValueCons(n, []);
    } else {
      var group, rest := BIT_8 + n % BASE, n / BASE;
      GroupsValueCons(group, VarUint(rest));
      VarUintValue(rest);
      GroupOf(n);
    }
  }

  lemma GroupOf(n: nat)
    ensures (BIT_8 + n % BASE) % BASE + BASE * (n / BASE) == n
  {
  }

  lemma {:induction false} TerminatorIs(bytes: Bytes, pos: nat, e: nat)
    requires pos <= e <= |bytes|
    requires forall i :: pos <= i < e ==> bytes[i] >= BIT_8
    requires e < |bytes| ==> bytes[e] < BIT_8
    ensures Terminator(bytes, pos) == e
    decreases e - pos
  {
    if pos < e {
      TerminatorIs(bytes, pos + 1, e);
    }
  }

  /** Reading inverts writing on every safe integer, wherever in a frame the number stands. */
  lemma VarUintRoundTrip(before: Bytes, n: nat, after: Bytes)
    requires n <= MAX_SAFE_INTEGER
    ensures VarUintAt(before + VarUint(n) + after, |before|) == Got(n, |before| + |VarUint(n)|)
  {
    EighthPowerIsFirstUnsafe(8);
    VarUintLength(n, 8);
    VarUintShape(n);
    VarUintValue(n);
    var bytes, e := before + VarUint(n) + after, |before| + |VarUint(n)| - 1;
    forall i | |before| <= i <= e
      ensures bytes[i] == VarUint(n)[i - |before|]
    {
    }
    TerminatorIs(bytes, |before|, e);
    assert bytes[|before|..e + 1] == VarUint(n);
  }

  /** A number cut short never reads as a smaller number. */
  lemma VarUintCut(before: Bytes, n: nat, k: nat)
    requires n <= MAX_SAFE_INTEGER && k < |VarUint(n)|
    ensures VarUintAt(before + VarUint(n)[..k], |before|) == Failed(EndedInsideVarUint, |before| + k)
  {
    EighthPowerIsFirstUnsafe(8);
    VarUintLength(n, 8);
    VarUintShape(n);
    TerminatorIs(before + VarUint(n)[..k], |before|, |before| + k);
  }

  lemma VarBytesRoundTrip(before: Bytes, payload: Bytes, after: Bytes)
    requires |payload| <= MAX_SAFE_INTEGER
    ensures VarBytesAt(before + VarBytes(payload) + after, |before|)
         == Got(payload, |before| + |VarBytes(payload)|)
  {
    var bytes, next := before + VarBytes(payload) + after, |before| + |VarUint(|payload|)|;
    assert bytes == before + VarUint(|payload|) + (payload + after);
    VarUintRoundTrip(before, |payload|, payload + after);
    assert bytes[next..next + |payload|] == payload;
  }

  lemma VarBytesCut(before: Bytes, payload: Bytes, k: nat)
    requires |payload| <= MAX_SAFE_INTEGER && k < |VarBytes(payload)|
    ensures VarBytesAt(before + VarBytes(payload)[..k], |before|).Failed?
  {
    var sized := VarUint(|payload|);
    if k < |sized| {
      assert VarBytes(payload)[..k] == sized[..k];
      VarUintCut(before, |payload|, k);
    } else {
      var part := payload[..k - |sized|];
      assert before + VarBytes(payload)[..k] == before + sized + part;
      VarUintRoundTrip(before, |payload|, part);
    }
  }

  function Header(f: Frame): Bytes
    requires Encodable(f)
  {
    match f
    case SyncStep1(_) => [MESSAGE_SYNC, SYNC_STEP_1]
    case SyncStep2(_) => [MESSAGE_SYNC, SYNC_STEP_2]
    case SyncUpdate(_) => [MESSAGE_SYNC, SYNC_UPDATE]
    case Awareness(_) => [MESSAGE_AWARENESS]
  }

  lemma EncodingSplits(f: Frame)
    requires Encodable(f)
    ensures Encoding(f) == Header(f) + VarBytes(Payload(f))
  {
    var tail := VarBytes(Payload(f));
    match f
    case SyncStep1(_) => assert VarUint(MESSAGE_SYNC) + VarUint(SYNC_STEP_1) == Header(f);
    case SyncStep2(_) => assert VarUint(MESSAGE_SYNC) + VarUint(SYNC_STEP_2) == Header(f);
    case SyncUpdate(_) => assert VarUint(MESSAGE_SYNC) + VarUint(SYNC_UPDATE) == Header(f);
    case Awareness(_) => assert VarUint(MESSAGE_AWARENESS) == Header(f);
  }

  /** One byte below 128 is a whole integer. */
  lemma SmallReads(before: Bytes, n: Byte, rest: Bytes)
    requires n < BASE
    ensures VarUintAt(before + [n] + rest, |before|) == Got(n, |before| + 1)
  {
    assert VarUint(n) == [n];
    VarUintRoundTrip(before, n, rest);
  }

  lemma SecondReads(h: Bytes, rest: Bytes)
    requires |h| == 2 && h[0] < BASE && h[1] < BASE
    ensures VarUintAt(h + rest, 1) == Got(h[1], 2)
  {
    assert h + rest == [h[0]] + [h[1]] + rest;
    SmallReads([h[0]], h[1], rest);
  }

  lemma FirstReads(h: Bytes, rest: Bytes)
    requires h != [] && h[0] < BASE
    ensures VarUintAt(h + rest, 0) == Got(h[0], 1)
  {
    assert h + rest == [] + [h[0]] + (h[1..] + rest);
    SmallReads([], h[0], h[1..] + rest);
  }

  lemma HeaderReads(f: Frame, rest: Bytes)
    requires Encodable(f)
    ensures Encoding(f) == Header(f) + VarBytes(Payload(f))
    ensures VarUintAt(Header(f) + rest, 0) == Got(Header(f)[0], 1)
    ensures !f.Awareness? ==> VarUintAt(Header(f) + rest, 1) == Got(Header(f)[1], 2)
  {
    EncodingSplits(f);
    FirstReads(Header(f), rest);
    if !f.Awareness? {
      SecondReads(Header(f), rest);
    }
  }

  /** Decoding an encoded frame followed by anything returns that frame. */
  lemma DecodeInvertsEncode(f: Frame, suffix: Bytes)
    requires Encodable(f) && |Payload(f)| <= MAX_SAFE_INTEGER
    ensures Decode(Encoding(f) + suffix) == Ok(f)
  {
    var rest := VarBytes(Payload(f)) + suffix;
    HeaderReads(f, rest);
    assert Encoding(f) + suffix == Header(f) + rest;
    assert Encoding(f) + suffix == Header(f) + VarBytes(Payload(f)) + suffix;
    VarBytesRoundTrip(Header(f), Payload(f), suffix);
  }

  lemma CutInHeader(f: Frame, k: nat)
    requires Encodable(f) && k < |Header(f)|
    ensures Decode(Header(f)[..k]).Err?
  {
    var h := Header(f);
    if k == 1 {
      FirstReads([h[0]], []);
      assert h[..1] == [h[0]] + [];
    }
  }

  lemma CutInPayload(f: Frame, k: nat)
    requires Encodable(f) && |Payload(f)| <= MAX_SAFE_INTEGER && k < |VarBytes(Payload(f))|
    ensures Decode(Header(f) + VarBytes(Payload(f))[..k]).Err?
  {
    HeaderReads(f, VarBytes(Payload(f))[..k]);
    VarBytesCut(Header(f), Payload(f), k);
  }

  /** A truncated frame is refused, wherever it was cut. */
  lemma ProperPrefixRejected(f: Frame, k: nat)
    requires Encodable(f) && |Payload(f)| <= MAX_SAFE_INTEGER
    requires k < |Encoding(f)|
    ensures Decode(Encoding(f)[..k]).Err?
  {
    EncodingSplits(f);
    var h := Header(f);
    if k < |h| {
      assert Encoding(f)[..k] == h[..k];
      CutInHeader(f, k);
    } else {
      assert Encoding(f)[..k] == h + VarBytes(Payload(f))[..k - |h|];
      CutInPayload(f, k - |h|);
    }
  }

  /** Two different frames never share a wire form, and neither is a prefix of the other. */
  lemma EncodingIsPrefixFree(f: Frame, g: Frame)
    requires Encodable(f) && |Payload(f)| <= MAX_SAFE_INTEGER
    requires Encodable(g) && |Payload(g)| <= MAX_SAFE_INTEGER
    requires Encoding(f) <= Encoding(g)
    ensures f == g
  {
    DecodesFirst(f, Encoding(g));
    DecodesFirst(g, Encoding(g));
  }

  lemma DecodesFirst(f: Frame, bytes: Bytes)
    requires Encodable(f) && |Payload(f)| <= MAX_SAFE_INTEGER && Encoding(f) <= bytes
    ensures Decode(bytes) == Ok(f)
  {
    var suffix := bytes[|Encoding(f)|..];
    assert bytes == Encoding(f) + suffix;
    DecodeInvertsEncode(f, suffix);
  }

  // ---- The bytes on the wire -----------------------------------------------------------

  /** The tags of the y-websocket protocol: sync is 0 and then 0, 1 or 2; awareness is 1. */
  lemma TagsOnTheWire(f: Frame)
    requires Encodable(f)
    ensures f.SyncStep1? ==> Encoding(f) == [0, 0] + VarBytes(f.stateVector)
    ensures f.SyncStep2? ==> Encoding(f) == [0, 1] + VarBytes(f.update)
    ensures f.SyncUpdate? ==> Encoding(f) == [0, 2] + VarBytes(f.update)
    ensures f.Awareness? ==> Encoding(f) == [1] + VarBytes(f.payload)
  {
    EncodingSplits(f);
  }

  /**
   What the other tags decode to: 3 asks for presence, an unknown message is ignored, an unknown sync
   step refused.
   */
  lemma OtherTags(tag: nat, rest: Bytes)
    requires tag <= MAX_SAFE_INTEGER
    ensures tag == 3 ==> Decode(VarUint(tag) + rest) == Ok(QueryAwareness)
    ensures tag == 2 || tag > 3 ==> Decode(VarUint(tag) + rest) == Ok(Ignored(tag))
    ensures tag > 2 ==> Decode([0] + VarUint(tag) + rest) == Err(UnknownSyncStep)
  {
    LeadingTag(tag, rest);
    LeadingStep(tag, rest);
  }

  lemma LeadingTag(tag: nat, rest: Bytes)
    requires tag <= MAX_SAFE_INTEGER
    ensures VarUintAt(VarUint(tag) + rest, 0) == Got(tag, |VarUint(tag)|)
  {
    VarUintRoundTrip([], tag, rest);
    assert [] + VarUint(tag) + rest == VarUint(tag) + rest;
  }

  lemma LeadingStep(tag: nat, rest: Bytes)
    requires tag <= MAX_SAFE_INTEGER
    ensures VarUintAt([0] + VarUint(tag) + rest, 0) == Got(0, 1)
    ensures VarUintAt([0] + VarUint(tag) + rest, 1) == Got(tag, 1 + |VarUint(tag)|)
  {
    FirstReads([0], VarUint(tag) + rest);
    assert [0] + VarUint(tag) + rest == [0] + (VarUint(tag) + rest);
    VarUintRoundTrip([0], tag, rest);
  }

  /** Eight continuation bytes are too many, whatever follows; a length beyond the bytes is refused. */
  lemma LimitsAreKept(bytes: Bytes, pos: nat)
    requires pos <= |bytes|
    ensures pos + 8 <= |bytes| && (forall i :: pos <= i < pos + 8 ==> bytes[i] >= 128) ==>
              VarUintAt(bytes, pos) == Failed(ExceedsSafeRange, pos + 8)
    ensures VarUintAt(bytes, pos).Got? && VarUintAt(bytes, pos).value > |bytes| - VarUintAt(bytes, pos).next ==>
              VarBytesAt(bytes, pos) == Failed(LengthOverrun, VarUintAt(bytes, pos).next)
  {
  }

  /** Safe integers go up to 2^53 - 1, written out. */
  lemma SafeIntegersAre(n: int)
    ensures IsNonNegativeSafe(Int(n)) <==> 0 <= n < 9_007_199_254_740_992
  {
  }

  /** A number beyond them is refused on reading, however it is written. */
  lemma UnsafeIsRefused(before: Bytes, n: nat, after: Bytes)
    requires n > MAX_SAFE_INTEGER
    ensures
      var read := VarUintAt(before + VarUint(n) + after, |before|);
      read.Failed? && read.error == ExceedsSafeRange
  {
    VarUintShape(n);
    VarUintValue(n);
    var bytes, e := before + VarUint(n) + after, |before| + |VarUint(n)| - 1;
    forall i | |before| <= i <= e
      ensures bytes[i] == VarUint(n)[i - |before|]
    {
    }
    TerminatorIs(bytes, |before|, e);
    assert bytes[|before|..e + 1] == VarUint(n);
  }
}

/**
 From bytes to protocol events (apps/collab/src/server.ts:483-540): what an inbound frame asks for
 once its envelope is decoded and its payload read by Yjs, and what the frames the server sends mean
 to whoever decodes them.
 */
module Wire {
  import opened Prelude
  import opened Codec
  import opened Collab

  /** The Yjs reading and writing functions; reading may throw. */
  datatype Yjs = Yjs(
    readVector: Codec.Bytes -> Option<Updates>, readUpdate: Codec.Bytes -> Option<Updates>,
    writeVector: Updates -> Codec.Bytes, writeUpdate: Updates -> Codec.Bytes)

  /** Yjs reads back whatever it writes. */
  ghost predicate Faithful(yjs: Yjs) {
    && (forall u: Updates :: yjs.readVector(yjs.writeVector(u)) == Some(u))
    && (forall u: Updates :: yjs.readUpdate(yjs.writeUpdate(u)) == Some(u))
  }

  /** One more than the largest member. */
  ghost function Bound(u: Updates): (n: nat)
    ensures forall x :: x in u ==> x < n
    decreases |u|
  {
    if u == {} then 0
    else
      var x :| x in u;
      var n := Bound(u - {x});
      assert forall y :: y in u ==> y == x || y in u - {x};
      if x < n then n else x + 1
  }

  /** A set written as one byte per number, 1 for a member. */
  ghost function Bits(u: Updates): Codec.Bytes {
    seq(Bound(u), i requires 0 <= i => if i in u then 1 else 0)
  }

  function Members(bytes: Codec.Bytes): Option<Updates> {
    Some(set i | 0 <= i < |bytes| && bytes[i] == 1)
  }

  /** Faithfulness can be met: a document format that reads back what it writes. */
  lemma SomeYjsIsFaithful() returns (yjs: Yjs)
    ensures Faithful(yjs)
  {
    yjs := Yjs(bytes => Members(bytes), bytes => Members(bytes), u => Bits(u), u => Bits(u));
    forall u: Updates
      ensures Members(Bits(u)) == Some(u)
    {
      assert Members(Bits(u)).value == u;
    }
  }

  function Meaning(yjs: Yjs, frame: Codec.Frame): Inbound {
    match frame
    case SyncStep1(sv) => var v := yjs.readVector(sv); if v.Some? then AskSync(v.value) else Undecodable
    case SyncStep2(u) => var v := yjs.readUpdate(u); if v.Some? then SyncData(v.value) else Undecodable
    case SyncUpdate(u) => var v := yjs.readUpdate(u); if v.Some? then SyncData(v.value) else Undecodable
    case Awareness(p) => Presence(p)
    case QueryAwareness => QueryPresence
    case Ignored(_) => Unknown
  }

  function Interpreted(yjs: Yjs, data: Codec.Bytes, isBinary: bool): Inbound {
    if !isBinary then NotBinary
    else
      match Decode(data)
      case Err(_) => Undecodable
      case Ok(frame) => Meaning(yjs, frame)
  }

  function FrameOf(yjs: Yjs, m: Message): (f: Codec.Frame)
    ensures Encodable(f)
  {
    match m
    case Step1(sv) => SyncStep1(yjs.writeVector(sv))
    case Step2(u) => SyncStep2(yjs.writeUpdate(u))
    case Update(u) => SyncUpdate(yjs.writeUpdate(u))
    case Aware(p) => Awareness(p)
  }

  /** What a message says to a peer that speaks the protocol. */
  function Heard(m: Message): Inbound {
    match m
    case Step1(sv) => AskSync(sv)
    case Step2(u) => SyncData(u)
    case Update(u) => SyncData(u)
    case Aware(p) => Presence(p)
  }

  /** A message put on the wire is heard as it was meant, whatever bytes follow it. */
  lemma SentIsHeard(yjs: Yjs, m: Message, suffix: Codec.Bytes)
    requires Faithful(yjs) && |Payload(FrameOf(yjs, m))| <= MAX_SAFE_INTEGER
    ensures Interpreted(yjs, Encoding(FrameOf(yjs, m)) + suffix, true) == Heard(m)
  {
    DecodeInvertsEncode(FrameOf(yjs, m), suffix);
  }

  /** A message cut short is refused, never heard as another. */
  lemma CutIsRefused(yjs: Yjs, m: Message, n: nat)
    requires |Payload(FrameOf(yjs, m))| <= MAX_SAFE_INTEGER && n < |Encoding(FrameOf(yjs, m))|
    ensures Interpreted(yjs, Encoding(FrameOf(yjs, m))[..n], true) == Undecodable
  {
    ProperPrefixRejected(FrameOf(yjs, m), n);
  }

  /** Sync data is relayed as an update frame around the bytes received, and says the same. */
  lemma RelayKeepsMeaning(yjs: Yjs, data: Codec.Bytes, u: Codec.Bytes, suffix: Codec.Bytes)
    requires Decode(data) == Ok(SyncStep2(u)) || Decode(data) == Ok(SyncUpdate(u))
    ensures Interpreted(yjs, Encoding(SyncUpdate(u)) + suffix, true) == Interpreted(yjs, data, true)
  {
    DecodeInvertsEncode(SyncUpdate(u), suffix);
  }

  /** A presence query is heard as one, an unknown tag as nothing, unreadable data and text frames as what they are. */
  lemma OtherFramesAreHeard(yjs: Yjs, tag: nat, rest: Codec.Bytes)
    requires tag <= MAX_SAFE_INTEGER
    ensures tag == 3 ==> Interpreted(yjs, VarUint(tag) + rest, true) == QueryPresence
    ensures tag == 2 || tag > 3 ==> Interpreted(yjs, VarUint(tag) + rest, true) == Unknown
    ensures tag > 2 ==> Interpreted(yjs, [0] + VarUint(tag) + rest, true) == Undecodable
    ensures Interpreted(yjs, rest, false) == NotBinary
  {
    OtherTags(tag, rest);
  }

  /** Sync data Yjs cannot read is undecodable, under each of the three tags. */
  lemma UnreadableIsUndecodable(yjs: Yjs, payload: Codec.Bytes)
    requires |payload| <= MAX_SAFE_INTEGER
    ensures yjs.readVector(payload).None? ==> Interpreted(yjs, [0, 0] + VarBytes(payload), true) == Undecodable
    ensures yjs.readUpdate(payload).None? ==> Interpreted(yjs, [0, 1] + VarBytes(payload), true) == Undecodable
    ensures yjs.readUpdate(payload).None? ==> Interpreted(yjs, [0, 2] + VarBytes(payload), true) == Undecodable
  {
    ReadsBack(SyncStep1(payload));
    ReadsBack(SyncStep2(payload));
    ReadsBack(SyncUpdate(payload));
  }

  lemma ReadsBack(f: Codec.Frame)
    requires Encodable(f) && |Payload(f)| <= MAX_SAFE_INTEGER
    ensures Decode(Encoding(f)) == Ok(f)
    ensures f.SyncStep1? ==> Encoding(f) == [0, 0] + VarBytes(f.stateVector)
    ensures f.SyncStep2? ==> Encoding(f) == [0, 1] + VarBytes(f.update)
    ensures f.SyncUpdate? ==> Encoding(f) == [0, 2] + VarBytes(f.update)
  {
    DecodeInvertsEncode(f, []);
    assert Encoding(f) + [] == Encoding(f);
    TagsOnTheWire(f);
  }
}

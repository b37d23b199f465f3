/** Three of the generated messages: sizes, marshalling back to front into a buffer, and
    unmarshalling with unknown fields passed over. */
module Messages {
  import opened Common
  import opened BitOps
  import opened Varints
  import opened WireFormat

  datatype ExtraInfo = ExtraInfo(uuid: seq<byte>)

  datatype DBCommandRequest = DBCommandRequest(
    taskType: nat, entityId: int, database: seq<byte>, collection: seq<byte>,
    filter: seq<byte>, data: seq<byte>, ex: Option<ExtraInfo>, dbType: nat)

  datatype SetServerTimeOffset = SetServerTimeOffset(offset: int, targets: seq<seq<byte>>)

  const EMPTY_EXTRA := ExtraInfo([])
  const EMPTY_REQUEST := DBCommandRequest(0, 0, [], [], [], [], None, 0)
  const EMPTY_OFFSET := SetServerTimeOffset(0, [])

  /** Values the Go fields can hold: integers of their width, lengths that are an `int`. */
  predicate ExtraOk(m: ExtraInfo) {
    |m.uuid| + 11 < U64 / 2
  }

  predicate RequestOk(m: DBCommandRequest) {
    && m.taskType < U32 && m.dbType < U32 && IsI64(m.entityId)
    && |m.database| < U64 / 2 && |m.collection| < U64 / 2 && |m.filter| < U64 / 2 && |m.data| < U64 / 2
    && (m.ex.Some? ==> ExtraOk(m.ex.value))
  }

  predicate OffsetOk(m: SetServerTimeOffset) {
    IsI32(m.offset) && forall t :: t in m.targets ==> |t| < U64 / 2
  }

  // ---------------------------------------------------------------- the encodings

  function VarintField(tag: byte, v: nat): seq<byte> {
    if v == 0 then [] else [tag] + VarintBytes(v)
  }

  function Delimited(tag: byte, b: seq<byte>): seq<byte> {
    [tag] + VarintBytes(|b|) + b
  }

  function BytesField(tag: byte, b: seq<byte>): seq<byte> {
    if b == [] then [] else Delimited(tag, b)
  }

  function EncodeExtra(m: ExtraInfo): seq<byte> {
    BytesField(0xa, m.uuid)
  }

  function ExField(ex: Option<ExtraInfo>): seq<byte> {
    if ex.None? then [] else Delimited(0x3a, EncodeExtra(ex.value))
  }

  function EncodeRequest(m: DBCommandRequest): seq<byte>
    requires IsI64(m.entityId)
  {
    VarintField(0x8, m.taskType) + (VarintField(0x10, ToU64(m.entityId)) + (BytesField(0x1a, m.database)
    + (BytesField(0x22, m.collection) + (BytesField(0x2a, m.filter) + (BytesField(0x32, m.data)
    + (ExField(m.ex) + VarintField(0x40, m.dbType)))))))
  }

  function TargetsField(ts: seq<seq<byte>>): seq<byte> {
    if ts == [] then [] else Delimited(0x12, ts[0]) + TargetsField(ts[1..])
  }

  function EncodeOffset(m: SetServerTimeOffset): seq<byte>
    requires IsI32(m.offset)
  {
    VarintField(0x8, ToU64(m.offset)) + TargetsField(m.targets)
  }

  /** One byte of tag for the field numbers up to 15. */
  lemma ShortTag(num: nat, w: nat, v: nat, b: seq<byte>)
    requires num < 16 && w < 8
    ensures w == 0 ==> ForeignBytes(FVarint(num, v)) == [(num * 8) as byte] + VarintBytes(v)
    ensures w == 2 ==> ForeignBytes(FBytes(num, b)) == Delimited((num * 8 + 2) as byte, b)
  {
    FieldsOnTheWire(num, v, b, []);
    assert VarintBytes(num * 8 + w) == [(num * 8 + w) as byte];
  }

  /** The record of a number, left out if it is 0. */
  function VarintRecord(num: nat, v: nat): seq<Foreign> {
    if v == 0 then [] else [FVarint(num, v)]
  }

  /** The record of a byte string, left out if it is empty. */
  function BytesRecord(num: nat, b: seq<byte>): seq<Foreign> {
    if b == [] then [] else [FBytes(num, b)]
  }

  lemma RecordBytes(num: nat, v: nat, b: seq<byte>)
    requires num < 16
    ensures ForeignsBytes(VarintRecord(num, v)) == VarintField((num * 8) as byte, v)
    ensures ForeignsBytes(BytesRecord(num, b)) == BytesField((num * 8 + 2) as byte, b)
    ensures ForeignsBytes([FBytes(num, b)]) == Delimited((num * 8 + 2) as byte, b)
  {
    hide VarintBytes, Delimited, ForeignBytes;
    ShortTag(num, 0, v, b);
    ShortTag(num, 2, v, b);
    OneRecord(FVarint(num, v));
    OneRecord(FBytes(num, b));
  }

  lemma OneRecord(f: Foreign)
    ensures ForeignsBytes([f]) == ForeignBytes(f)
  {
    hide ForeignBytes;
    assert ForeignsBytes([f]) == ForeignBytes(f) + ForeignsBytes([f][1..]);
  }

  lemma {:induction false} RecordsConcat(a: seq<Foreign>, b: seq<Foreign>)
    ensures ForeignsBytes(a + b) == ForeignsBytes(a) + ForeignsBytes(b)
    decreases |a|
  {
    hide ForeignBytes;
    if a == [] {
      assert a + b == b;
    } else {
      RecordsConcat(a[1..], b);
      assert (a + b)[1..] == a[1..] + b;
    }
  }

  /** The nested message is the record of field 1. */
  lemma ExtraOnTheWire(m: ExtraInfo)
    ensures EncodeExtra(m) == if m.uuid == [] then [] else [0xa] + VarintBytes(|m.uuid|) + m.uuid
  {
    hide VarintBytes;
  }

  /** The encoding of a request is the sequence of the records of its fields, by field number,
      zero and empty values left out; the nested message is there whenever it is set. */
  lemma RequestOnTheWire(m: DBCommandRequest)
    requires IsI64(m.entityId)
    ensures
      EncodeRequest(m) == ForeignsBytes(
        VarintRecord(1, m.taskType)
        + (VarintRecord(2, if m.entityId < 0 then m.entityId + 0x1_0000_0000_0000_0000 else m.entityId)
        + (BytesRecord(3, m.database) + (BytesRecord(4, m.collection) + (BytesRecord(5, m.filter) + (BytesRecord(6, m.data)
        + ((if m.ex.None? then [] else [FBytes(7, EncodeExtra(m.ex.value))]) + VarintRecord(8, m.dbType))))))))
  {
    hide VarintField, BytesField, ExField, VarintRecord, BytesRecord, ForeignBytes, ForeignsBytes;
    LastOnTheWire(m);
    var r7 := (if m.ex.None? then [] else [FBytes(7, EncodeExtra(m.ex.value))]) + VarintRecord(8, m.dbType);
    BytesOnTheWire(m, r7);
    var r3 := BytesRecord(3, m.database) + (BytesRecord(4, m.collection) + (BytesRecord(5, m.filter) + (BytesRecord(6, m.data) + r7)));
    var r2 := VarintRecord(2, ToU64(m.entityId)) + r3;
    RecordBytes(2, ToU64(m.entityId), []);
    RecordsConcat(VarintRecord(2, ToU64(m.entityId)), r3);
    RecordBytes(1, m.taskType, []);
    RecordsConcat(VarintRecord(1, m.taskType), r2);
  }

  lemma LastOnTheWire(m: DBCommandRequest)
    ensures ExField(m.ex) + VarintField(0x40, m.dbType) == ForeignsBytes(
              (if m.ex.None? then [] else [FBytes(7, EncodeExtra(m.ex.value))]) + VarintRecord(8, m.dbType))
  {
    hide VarintField, Delimited, VarintRecord, EncodeExtra, ForeignBytes;
    RecordBytes(8, m.dbType, []);
    if m.ex.Some? { RecordBytes(7, 0, EncodeExtra(m.ex.value)); }
    RecordsConcat(if m.ex.None? then [] else [FBytes(7, EncodeExtra(m.ex.value))], VarintRecord(8, m.dbType));
  }

  lemma BytesOnTheWire(m: DBCommandRequest, r7: seq<Foreign>)
    ensures
      BytesField(0x1a, m.database) + (BytesField(0x22, m.collection) + (BytesField(0x2a, m.filter)
      + (BytesField(0x32, m.data) + ForeignsBytes(r7))))
      == ForeignsBytes(BytesRecord(3, m.database) + (BytesRecord(4, m.collection) + (BytesRecord(5, m.filter) + (BytesRecord(6, m.data) + r7))))
  {
    hide BytesField, BytesRecord, ForeignBytes, ForeignsBytes;
    var r6 := BytesRecord(6, m.data) + r7;
    RecordBytes(6, 0, m.data);
    RecordsConcat(BytesRecord(6, m.data), r7);
    var r5 := BytesRecord(5, m.filter) + r6;
    RecordBytes(5, 0, m.filter);
    RecordsConcat(BytesRecord(5, m.filter), r6);
    var r4 := BytesRecord(4, m.collection) + r5;
    RecordBytes(4, 0, m.collection);
    RecordsConcat(BytesRecord(4, m.collection), r5);
    RecordBytes(3, 0, m.database);
    RecordsConcat(BytesRecord(3, m.database), r4);
  }

  lemma {:induction false} TargetsOnTheWire(ts: seq<seq<byte>>, fs: seq<Foreign>)
    requires |fs| == |ts| && forall i :: 0 <= i < |ts| ==> fs[i] == FBytes(2, ts[i])
    ensures TargetsField(ts) == ForeignsBytes(fs)
  {
    hide Delimited, ForeignBytes;
    if ts != [] {
      TargetsOnTheWire(ts[1..], fs[1..]);
      ShortTag(2, 2, 0, ts[0]);
    }
  }

  /** The time message: its offset in field 1, then one record of field 2 for each target, empty or not. */
  lemma OffsetOnTheWire(m: SetServerTimeOffset, fs: seq<Foreign>)
    requires IsI32(m.offset)
    requires |fs| == |m.targets| && forall i :: 0 <= i < |fs| ==> fs[i] == FBytes(2, m.targets[i])
    ensures
      EncodeOffset(m) == ForeignsBytes(
        VarintRecord(1, if m.offset < 0 then m.offset + 0x1_0000_0000_0000_0000 else m.offset) + fs)
  {
    hide VarintField, TargetsField, VarintRecord;
    var v := VarintRecord(1, ToU64(m.offset));
    RecordsConcat(v, fs);
    RecordBytes(1, ToU64(m.offset), []);
    TargetsOnTheWire(m.targets, fs);
  }

  // ---------------------------------------------------------------- sizes

  function SizeExtra(m: ExtraInfo): nat {
    var l := |m.uuid|;
    if l > 0 then 1 + l + Sov(l) else 0
  }

  function SizeVarint(v: nat): nat {
    if v != 0 then 1 + Sov(v) else 0
  }

  function SizeBytes(l: nat): nat {
    if l > 0 then 1 + l + Sov(l) else 0
  }

  function SizeRequest(m: DBCommandRequest): nat
    requires IsI64(m.entityId)
  {
    SizeVarint(m.taskType) + SizeVarint(ToU64(m.entityId)) + SizeBytes(|m.database|) + SizeBytes(|m.collection|)
    + SizeBytes(|m.filter|) + SizeBytes(|m.data|)
    + (if m.ex.Some? then var l := SizeExtra(m.ex.value); 1 + l + Sov(l) else 0)
    + SizeVarint(m.dbType)
  }

  lemma FieldSizes(tag: byte, v: nat, b: seq<byte>)
    ensures |VarintField(tag, v)| == SizeVarint(v)
    ensures |BytesField(tag, b)| == SizeBytes(|b|)
    ensures |Delimited(tag, b)| == 1 + |b| + Sov(|b|)
  {
    hide Sov, VarintBytes;
    SovIsLength(v);
    SovIsLength(|b|);
  }

  /** `Size` is the length of the encoding. */
  lemma SizeIsLength(m: DBCommandRequest)
    requires IsI64(m.entityId)
    ensures SizeRequest(m) == |EncodeRequest(m)|
    ensures m.ex.Some? ==> SizeExtra(m.ex.value) == |EncodeExtra(m.ex.value)|
  {
    hide VarintField, BytesField, Delimited, Sov, SizeVarint;
    FieldSizes(0x8, m.taskType, []);
    FieldSizes(0x10, ToU64(m.entityId), []);
    FieldSizes(0x1a, 0, m.database);
    FieldSizes(0x22, 0, m.collection);
    FieldSizes(0x2a, 0, m.filter);
    FieldSizes(0x32, 0, m.data);
    FieldSizes(0x40, m.dbType, []);
    if m.ex.Some? {
      FieldSizes(0xa, 0, m.ex.value.uuid);
      FieldSizes(0x3a, 0, EncodeExtra(m.ex.value));
    }
  }

  /** The size of the time message, added up over its targets. */
  method SizeOffset(m: SetServerTimeOffset) returns (n: nat)
    requires IsI32(m.offset)
    ensures n == |EncodeOffset(m)|
  {
    hide VarintField, Delimited, Sov;
    n := 0;
    FieldSizes(0x8, ToU64(m.offset), []);
    if m.offset != 0 {
      n := n + 1 + Sov(ToU64(m.offset));
    }
    var at := 0;
    while at < |m.targets|
      invariant at <= |m.targets|
      invariant n + |TargetsField(m.targets[at..])| == |EncodeOffset(m)|
    {
      var l := |m.targets[at]|;
      FieldSizes(0x12, 0, m.targets[at]);
      assert m.targets[at..][1..] == m.targets[at + 1..];
      n := n + 1 + l + Sov(l);
      at := at + 1;
    }
  }

  // ---------------------------------------------------------------- marshalling

  /** The bytes from `i` to `end` of a buffer have become `b`; the rest is as it was. */
  ghost predicate Filled(was: seq<byte>, now: seq<byte>, i: nat, end: nat, b: seq<byte>) {
    && i <= end <= |was| == |now|
    && i + |b| == end
    && now[..i] == was[..i] && now[i..end] == b && now[end..] == was[end..]
  }

  lemma FilledTwice(s0: seq<byte>, s1: seq<byte>, s2: seq<byte>, i: nat, j: nat, end: nat, a: seq<byte>, b: seq<byte>)
    requires Filled(s0, s1, j, end, b) && Filled(s1, s2, i, j, a)
    ensures Filled(s0, s2, i, end, a + b)
  {
    assert s2[i..end] == s2[i..j] + s2[j..][..end - j];
    assert s1[j..][..end - j] == s1[j..end];
    assert s2[end..] == s2[j..][end - j..] && s1[end..] == s1[j..][end - j..];
    assert s2[..i] == s1[..j][..i] == s0[..i];
  }

  /** A tag and a varint before position `end`. */
  method PutVarint(dAtA: array<byte>, end: nat, tag: byte, v: nat) returns (i: nat)
    requires 1 + Sov(v) <= end <= dAtA.Length
    modifies dAtA
    ensures Filled(old(dAtA[..]), dAtA[..], i, end, [tag] + VarintBytes(v))
  {
    hide Sov;
    SovIsLength(v);
    i := EncodeVarint(dAtA, end, v);
    i := i - 1;
    dAtA[i] := tag;
  }

  method CopyBytes(dAtA: array<byte>, at: nat, b: seq<byte>)
    requires at + |b| <= dAtA.Length
    modifies dAtA
    ensures Filled(old(dAtA[..]), dAtA[..], at, at + |b|, b)
  {
    forall k | 0 <= k < |b| {
      dAtA[at + k] := b[k];
    }
  }

  /** A tag, a length and the bytes before position `end`. */
  method PutBytes(dAtA: array<byte>, end: nat, tag: byte, b: seq<byte>) returns (i: nat)
    requires 1 + |b| + Sov(|b|) <= end <= dAtA.Length
    modifies dAtA
    ensures Filled(old(dAtA[..]), dAtA[..], i, end, Delimited(tag, b))
  {
    hide Sov, VarintBytes;
    i := end - |b|;
    CopyBytes(dAtA, i, b);
    label copied:
    var j := PutVarint(dAtA, i, tag, |b|);
    FilledTwice(old(dAtA[..]), old@copied(dAtA[..]), dAtA[..], j, i, end, [tag] + VarintBytes(|b|), b);
    i := j;
  }

  /** The field if it is not empty. */
  method PutBytesField(dAtA: array<byte>, end: nat, tag: byte, b: seq<byte>) returns (i: nat)
    requires SizeBytes(|b|) <= end <= dAtA.Length
    modifies dAtA
    ensures Filled(old(dAtA[..]), dAtA[..], i, end, BytesField(tag, b))
  {
    hide Sov, VarintBytes;
    i := end;
    if |b| > 0 {
      i := PutBytes(dAtA, i, tag, b);
    }
  }

  method PutVarintField(dAtA: array<byte>, end: nat, tag: byte, v: nat) returns (i: nat)
    requires SizeVarint(v) <= end <= dAtA.Length
    modifies dAtA
    ensures Filled(old(dAtA[..]), dAtA[..], i, end, VarintField(tag, v))
  {
    hide Sov, VarintBytes;
    i := end;
    if v != 0 {
      i := PutVarint(dAtA, i, tag, v);
    }
  }

  method MarshalExtra(m: ExtraInfo, dAtA: array<byte>, end: nat) returns (i: nat)
    requires SizeExtra(m) <= end <= dAtA.Length
    modifies dAtA
    ensures Filled(old(dAtA[..]), dAtA[..], i, end, EncodeExtra(m))
  {
    i := PutBytesField(dAtA, end, 0xa, m.uuid);
  }

  method PutExField(dAtA: array<byte>, end: nat, ex: Option<ExtraInfo>) returns (i: nat)
    requires |ExField(ex)| <= end <= dAtA.Length
    modifies dAtA
    ensures Filled(old(dAtA[..]), dAtA[..], i, end, ExField(ex))
  {
    hide Sov, VarintBytes, BytesField;
    i := end;
    if ex.Some? {
      var b := EncodeExtra(ex.value);
      FieldSizes(0xa, 0, ex.value.uuid);
      FieldSizes(0x3a, 0, b);
      i := MarshalExtra(ex.value, dAtA, i);
      label nested:
      var size := end - i;
      var j := PutVarint(dAtA, i, 0x3a, size);
      FilledTwice(old(dAtA[..]), old@nested(dAtA[..]), dAtA[..], j, i, end, [0x3a] + VarintBytes(size), b);
      i := j;
    }
  }

  /** Fills the last `Size` bytes before `end` with the encoding, last field first, and touches
      nothing else. */
  method MarshalRequest(m: DBCommandRequest, dAtA: array<byte>, end: nat) returns (i: nat)
    requires IsI64(m.entityId) && SizeRequest(m) <= end <= dAtA.Length
    modifies dAtA
    ensures Filled(old(dAtA[..]), dAtA[..], i, end, EncodeRequest(m))
  {
    hide VarintField, BytesField, ExField, Sov, SizeVarint, SizeBytes;
    RequestFieldSizes(m);
    ghost var s0 := dAtA[..];
    i := PutVarintField(dAtA, end, 0x40, m.dbType);
    ghost var s1, i1, b1 := dAtA[..], i, VarintField(0x40, m.dbType);
    i := PutExField(dAtA, i, m.ex);
    FilledTwice(s0, s1, dAtA[..], i, i1, end, ExField(m.ex), b1);
    ghost var s2, i2, b2 := dAtA[..], i, ExField(m.ex) + b1;
    i := PutBytesField(dAtA, i, 0x32, m.data);
    FilledTwice(s0, s2, dAtA[..], i, i2, end, BytesField(0x32, m.data), b2);
    ghost var s3, i3, b3 := dAtA[..], i, BytesField(0x32, m.data) + b2;
    i := PutBytesField(dAtA, i, 0x2a, m.filter);
    FilledTwice(s0, s3, dAtA[..], i, i3, end, BytesField(0x2a, m.filter), b3);
    ghost var s4, i4, b4 := dAtA[..], i, BytesField(0x2a, m.filter) + b3;
    i := PutBytesField(dAtA, i, 0x22, m.collection);
    FilledTwice(s0, s4, dAtA[..], i, i4, end, BytesField(0x22, m.collection), b4);
    ghost var s5, i5, b5 := dAtA[..], i, BytesField(0x22, m.collection) + b4;
    i := PutBytesField(dAtA, i, 0x1a, m.database);
    FilledTwice(s0, s5, dAtA[..], i, i5, end, BytesField(0x1a, m.database), b5);
    ghost var s6, i6, b6 := dAtA[..], i, BytesField(0x1a, m.database) + b5;
    i := PutVarintField(dAtA, i, 0x10, ToU64(m.entityId));
    FilledTwice(s0, s6, dAtA[..], i, i6, end, VarintField(0x10, ToU64(m.entityId)), b6);
    ghost var s7, i7, b7 := dAtA[..], i, VarintField(0x10, ToU64(m.entityId)) + b6;
    i := PutVarintField(dAtA, i, 0x8, m.taskType);
    FilledTwice(s0, s7, dAtA[..], i, i7, end, VarintField(0x8, m.taskType), b7);
  }

  lemma RequestFieldSizes(m: DBCommandRequest)
    requires IsI64(m.entityId)
    ensures |VarintField(0x8, m.taskType)| == SizeVarint(m.taskType)
    ensures |VarintField(0x10, ToU64(m.entityId))| == SizeVarint(ToU64(m.entityId))
    ensures |BytesField(0x1a, m.database)| == SizeBytes(|m.database|)
    ensures |BytesField(0x22, m.collection)| == SizeBytes(|m.collection|)
    ensures |BytesField(0x2a, m.filter)| == SizeBytes(|m.filter|)
    ensures |BytesField(0x32, m.data)| == SizeBytes(|m.data|)
    ensures |VarintField(0x40, m.dbType)| == SizeVarint(m.dbType)
    ensures SizeRequest(m) == |EncodeRequest(m)|
  {
    hide VarintField, BytesField, Delimited, Sov, SizeVarint, SizeBytes;
    SizeIsLength(m);
    FieldSizes(0x8, m.taskType, []);
    FieldSizes(0x10, ToU64(m.entityId), []);
    FieldSizes(0x1a, 0, m.database);
    FieldSizes(0x22, 0, m.collection);
    FieldSizes(0x2a, 0, m.filter);
    FieldSizes(0x32, 0, m.data);
    FieldSizes(0x40, m.dbType, []);
  }

  /** A buffer of exactly `Size` bytes is filled from end to start. */
  method Marshal(m: DBCommandRequest) returns (b: seq<byte>)
    requires IsI64(m.entityId)
    ensures b == EncodeRequest(m)
  {
    hide EncodeRequest;
    var size := SizeRequest(m);
    SizeIsLength(m);
    var dAtA := new byte[size](_ => 0);
    var i := MarshalRequest(m, dAtA, size);
    b := dAtA[..];
    assert b == dAtA[..i] + dAtA[i..size] + dAtA[size..];
  }

  lemma FilledNothing(s: seq<byte>, end: nat)
    requires end <= |s|
    ensures Filled(s, s, end, end, [])
  {
  }

  /** The repeated field is written from its last element to its first. */
  method PutTargets(dAtA: array<byte>, end: nat, ts: seq<seq<byte>>) returns (i: nat)
    requires |TargetsField(ts)| <= end <= dAtA.Length
    modifies dAtA
    ensures Filled(old(dAtA[..]), dAtA[..], i, end, TargetsField(ts))
  {
    hide Delimited, Sov, Filled;
    i := end;
    FilledNothing(dAtA[..], end);
    for iNdEx := |ts| downto 0
      invariant i + |TargetsField(ts[iNdEx..])| == end
      invariant Filled(old(dAtA[..]), dAtA[..], i, end, TargetsField(ts[iNdEx..]))
    {
      i := PutTarget(dAtA, i, end, ts, iNdEx, old(dAtA[..]));
    }
  }

  method PutTarget(dAtA: array<byte>, i1: nat, ghost end: nat, ts: seq<seq<byte>>, iNdEx: nat, ghost s0: seq<byte>) returns (i: nat)
    requires iNdEx < |ts| && |TargetsField(ts)| <= end <= dAtA.Length
    requires i1 + |TargetsField(ts[iNdEx + 1..])| == end
    requires Filled(s0, dAtA[..], i1, end, TargetsField(ts[iNdEx + 1..]))
    modifies dAtA
    ensures i + |TargetsField(ts[iNdEx..])| == end
    ensures Filled(s0, dAtA[..], i, end, TargetsField(ts[iNdEx..]))
  {
    hide Delimited, Sov, Filled;
    ghost var rest := TargetsField(ts[iNdEx + 1..]);
    TargetsLength(ts, iNdEx);
    FieldSizes(0x12, 0, ts[iNdEx]);
    i := PutBytes(dAtA, i1, 0x12, ts[iNdEx]);
    FilledTwice(s0, old(dAtA[..]), dAtA[..], i, i1, end, Delimited(0x12, ts[iNdEx]), rest);
    FilledLength(old(dAtA[..]), dAtA[..], i, i1, Delimited(0x12, ts[iNdEx]));
    assert ts[iNdEx..][1..] == ts[iNdEx + 1..];
  }

  lemma FilledLength(was: seq<byte>, now: seq<byte>, i: nat, end: nat, b: seq<byte>)
    requires Filled(was, now, i, end, b)
    ensures i + |b| == end
  {
  }

  method MarshalOffset(m: SetServerTimeOffset, dAtA: array<byte>, end: nat) returns (i: nat)
    requires IsI32(m.offset) && |EncodeOffset(m)| <= end <= dAtA.Length
    modifies dAtA
    ensures Filled(old(dAtA[..]), dAtA[..], i, end, EncodeOffset(m))
  {
    hide VarintField, Delimited, Sov, Filled, TargetsField;
    i := PutTargets(dAtA, end, m.targets);
    label repeated:
    var i1 := i;
    FilledLength(old(dAtA[..]), dAtA[..], i, end, TargetsField(m.targets));
    FieldSizes(0x8, ToU64(m.offset), []);
    i := PutVarintField(dAtA, i, 0x8, ToU64(m.offset));
    FilledTwice(old(dAtA[..]), old@repeated(dAtA[..]), dAtA[..], i, i1, end, VarintField(0x8, ToU64(m.offset)), TargetsField(m.targets));
  }

  lemma {:induction false} TargetsLength(ts: seq<seq<byte>>, at: nat)
    requires at < |ts|
    ensures |Delimited(0x12, ts[at])| + |TargetsField(ts[at + 1..])| <= |TargetsField(ts)|
  {
    hide Delimited;
    if at > 0 {
      TargetsLength(ts[1..], at - 1);
      assert ts[1..][at..] == ts[at + 1..];
    }
  }

  // ---------------------------------------------------------------- the fields each message knows

  function BytesOutcome<M>(w: nat, d: seq<byte>, set_: seq<byte> -> M): FieldOutcome<M> {
    if w != 2 then Bad(WrongWireType)
    else match LenBytes(d)
      case Err(e) => Bad(e)
      case Ok((b, n)) => Set(set_(b), n)
  }

  function VarintOutcome<M>(w: nat, d: seq<byte>, width: nat, set_: nat -> M): FieldOutcome<M> {
    if w != 0 then Bad(WrongWireType)
    else match Varint(d, width)
      case Err(e) => Bad(e)
      case Ok((v, n)) => Set(set_(v), n)
  }

  function ExtraField(m: ExtraInfo, num: int, w: nat, d: seq<byte>): FieldOutcome<ExtraInfo> {
    if num == 1 then BytesOutcome(w, d, b => m.(uuid := b))
    else FieldOutcome.Unknown
  }

  function RequestField(m: DBCommandRequest, num: int, w: nat, d: seq<byte>): FieldOutcome<DBCommandRequest> {
    if num == 1 then VarintOutcome(w, d, 32, v => m.(taskType := v))
    else if num == 2 then VarintOutcome(w, d, 64, v => m.(entityId := ToI64(v)))
    else if num == 3 then BytesOutcome(w, d, b => m.(database := b))
    else if num == 4 then BytesOutcome(w, d, b => m.(collection := b))
    else if num == 5 then BytesOutcome(w, d, b => m.(filter := b))
    else if num == 6 then BytesOutcome(w, d, b => m.(data := b))
    else if num == 7 then
      if w != 2 then Bad(WrongWireType)
      else match LenBytes(d) {
        case Err(e) => Bad(e)
        case Ok((b, n)) =>
          match Parse(ExtraField, if m.ex.Some? then m.ex.value else EMPTY_EXTRA, b) {
            case Err(e) => Bad(e)
            case Ok(x) => Set(m.(ex := Some(x)), n)
          }
      }
    else if num == 8 then VarintOutcome(w, d, 32, v => m.(dbType := v))
    else FieldOutcome.Unknown
  }

  function OffsetField(m: SetServerTimeOffset, num: int, w: nat, d: seq<byte>): FieldOutcome<SetServerTimeOffset> {
    if num == 1 then VarintOutcome(w, d, 32, v => m.(offset := ToI32(v)))
    else if num == 2 then BytesOutcome(w, d, b => m.(targets := m.targets + [b]))
    else FieldOutcome.Unknown
  }

  lemma LenBytesStable(d: seq<byte>, e: seq<byte>)
    requires LenBytes(d).Ok?
    ensures LenBytes(d + e) == LenBytes(d)
  {
    hide Varint;
    VarintStable(d, e, 64);
    var (bits, n) := Varint(d, 64).value;
    assert (d + e)[n..n + ToI64(bits)] == d[n..n + ToI64(bits)];
  }

  lemma RequestFieldStable(m: DBCommandRequest, num: int, w: nat, d: seq<byte>, e: seq<byte>)
    ensures RequestField(m, num, w, d).Set? ==>
              RequestField(m, num, w, d).used <= |d| && RequestField(m, num, w, d + e) == RequestField(m, num, w, d)
    ensures RequestField(m, num, w, d).Unknown? ==> RequestField(m, num, w, d + e).Unknown?
  {
    hide Varint, LenBytes, Parse;
    if Varint(d, 32).Ok? { VarintStable(d, e, 32); }
    if Varint(d, 64).Ok? { VarintStable(d, e, 64); }
    if LenBytes(d).Ok? { LenBytesStable(d, e); }
  }

  lemma ExtraFieldStable(m: ExtraInfo, num: int, w: nat, d: seq<byte>, e: seq<byte>)
    ensures ExtraField(m, num, w, d).Set? ==>
              ExtraField(m, num, w, d).used <= |d| && ExtraField(m, num, w, d + e) == ExtraField(m, num, w, d)
    ensures ExtraField(m, num, w, d).Unknown? ==> ExtraField(m, num, w, d + e).Unknown?
  {
    hide LenBytes;
    if LenBytes(d).Ok? { LenBytesStable(d, e); }
  }

  lemma OffsetFieldStable(m: SetServerTimeOffset, num: int, w: nat, d: seq<byte>, e: seq<byte>)
    ensures OffsetField(m, num, w, d).Set? ==>
              OffsetField(m, num, w, d).used <= |d| && OffsetField(m, num, w, d + e) == OffsetField(m, num, w, d)
    ensures OffsetField(m, num, w, d).Unknown? ==> OffsetField(m, num, w, d + e).Unknown?
  {
    hide Varint, LenBytes;
    if Varint(d, 32).Ok? { VarintStable(d, e, 32); }
    if LenBytes(d).Ok? { LenBytesStable(d, e); }
  }

  lemma RequestRegular()
    ensures Regular(RequestField)
  {
    hide RequestField;
    var field: FieldParser<DBCommandRequest> := RequestField;
    forall m, num, w, d, e
      ensures field(m, num, w, d).Set? ==> field(m, num, w, d).used <= |d| && field(m, num, w, d + e) == field(m, num, w, d)
      ensures field(m, num, w, d).Unknown? ==> field(m, num, w, d + e).Unknown?
    {
      RequestFieldStable(m, num, w, d, e);
    }
  }

  lemma ExtraRegular()
    ensures Regular(ExtraField)
  {
    hide ExtraField;
    var field: FieldParser<ExtraInfo> := ExtraField;
    forall m, num, w, d, e
      ensures field(m, num, w, d).Set? ==> field(m, num, w, d).used <= |d| && field(m, num, w, d + e) == field(m, num, w, d)
      ensures field(m, num, w, d).Unknown? ==> field(m, num, w, d + e).Unknown?
    {
      ExtraFieldStable(m, num, w, d, e);
    }
  }

  lemma OffsetRegular()
    ensures Regular(OffsetField)
  {
    hide OffsetField;
    var field: FieldParser<SetServerTimeOffset> := OffsetField;
    forall m, num, w, d, e
      ensures field(m, num, w, d).Set? ==> field(m, num, w, d).used <= |d| && field(m, num, w, d + e) == field(m, num, w, d)
      ensures field(m, num, w, d).Unknown? ==> field(m, num, w, d + e).Unknown?
    {
      OffsetFieldStable(m, num, w, d, e);
    }
  }

  // ---------------------------------------------------------------- round trips

  /** One tagged field at the front of the input. */
  lemma ParseTagged<M>(field: FieldParser<M>, m: M, tag: byte, d: seq<byte>)
    requires 8 <= tag < 128 && tag % 8 != 4
    requires var out := field(m, (tag / 8) as int, (tag % 8) as nat, d); out.Set? && out.used <= |d|
    ensures
      var out := field(m, (tag / 8) as int, (tag % 8) as nat, d);
      Parse(field, m, [tag] + d) == Parse(field, out.m, d[out.used..])
  {
    hide Varint, FieldNumber, WireType, SkipFrom;
    TagFront(tag, d);
    var out := field(m, (tag / 8) as int, (tag % 8) as nat, d);
    assert ([tag] + d)[1..] == d;
    assert ([tag] + d)[1 + out.used..] == d[out.used..];
  }

  lemma TagFront(tag: byte, d: seq<byte>)
    requires 8 <= tag < 128
    ensures Varint([tag] + d, 64) == Ok((tag as nat, 1))
    ensures FieldNumber(tag as nat) == (tag / 8) as int && WireType(tag as nat) == (tag % 8) as nat
  {
    hide Varint, FieldNumber, WireType;
    Widths();
    VarintDecodes(tag as nat, d, 64);
    assert VarintBytes(tag as nat) == [tag];
    TagParts((tag / 8) as nat, (tag % 8) as nat);
  }

  lemma LenBytesDecodes(b: seq<byte>, e: seq<byte>)
    requires |b| < U64 / 2
    ensures LenBytes(VarintBytes(|b|) + b + e) == Ok((b, |VarintBytes(|b|)| + |b|))
  {
    hide Varint, VarintBytes;
    Widths();
    var d := VarintBytes(|b|) + b + e;
    assert d == VarintBytes(|b|) + (b + e);
    VarintDecodes(|b|, b + e, 64);
    assert d[|VarintBytes(|b|)|..][..|b|] == b;
  }

  lemma ParseVarintRecord<M>(field: FieldParser<M>, m: M, tag: byte, v: nat, width: nat, set_: nat -> M, e: seq<byte>)
    requires 8 <= tag < 128 && tag % 8 == 0 && v < U64
    requires forall d :: field(m, (tag / 8) as int, 0, d) == VarintOutcome(0, d, width, set_)
    ensures Parse(field, m, [tag] + VarintBytes(v) + e) == Parse(field, set_(v % Pow2(width)), e)
  {
    hide Varint, VarintBytes, Parse, Pow2;
    var d := VarintBytes(v) + e;
    VarintDecodes(v, e, width);
    assert field(m, (tag / 8) as int, 0, d) == VarintOutcome(0, d, width, set_);
    assert (tag % 8) as nat == 0;
    ParseTagged(field, m, tag, d);
    assert [tag] + VarintBytes(v) + e == [tag] + d;
    assert d[|VarintBytes(v)|..] == e;
  }

  lemma ParseVarintField<M>(field: FieldParser<M>, m: M, tag: byte, v: nat, width: nat, set_: nat -> M, e: seq<byte>)
    requires 8 <= tag < 128 && tag % 8 == 0 && v < U64
    requires forall d :: field(m, (tag / 8) as int, 0, d) == VarintOutcome(0, d, width, set_)
    ensures Parse(field, m, VarintField(tag, v) + e) == Parse(field, if v == 0 then m else set_(v % Pow2(width)), e)
  {
    hide Varint, VarintBytes, Parse, Pow2;
    if v == 0 {
      assert VarintField(tag, v) + e == e;
    } else {
      ParseVarintRecord(field, m, tag, v, width, set_, e);
    }
  }

  lemma ParseDelimited<M>(field: FieldParser<M>, m: M, tag: byte, b: seq<byte>, out: M, e: seq<byte>)
    requires 8 <= tag < 128 && tag % 8 == 2 && |b| < U64 / 2
    requires forall d :: LenBytes(d).Ok? && LenBytes(d).value.0 == b ==>
               field(m, (tag / 8) as int, 2, d) == Set(out, LenBytes(d).value.1)
    ensures Parse(field, m, Delimited(tag, b) + e) == Parse(field, out, e)
  {
    hide VarintBytes, Parse, LenBytes;
    var d := VarintBytes(|b|) + b + e;
    LenBytesDecodes(b, e);
    assert field(m, (tag / 8) as int, 2, d) == Set(out, LenBytes(d).value.1);
    assert (tag % 8) as nat == 2;
    ParseTagged(field, m, tag, d);
    assert Delimited(tag, b) + e == [tag] + d;
    assert d[|VarintBytes(|b|)| + |b|..] == e;
  }

  lemma ParseBytesField<M>(field: FieldParser<M>, m: M, tag: byte, b: seq<byte>, set_: seq<byte> -> M, e: seq<byte>)
    requires 8 <= tag < 128 && tag % 8 == 2 && |b| < U64 / 2
    requires forall d :: field(m, (tag / 8) as int, 2, d) == BytesOutcome(2, d, set_)
    ensures Parse(field, m, BytesField(tag, b) + e) == Parse(field, if b == [] then m else set_(b), e)
  {
    hide VarintBytes, Parse, LenBytes, Delimited;
    if b == [] {
      assert BytesField(tag, b) + e == e;
    } else {
      forall d | LenBytes(d).Ok? && LenBytes(d).value.0 == b
        ensures field(m, (tag / 8) as int, 2, d) == Set(set_(b), LenBytes(d).value.1)
      {
        assert field(m, (tag / 8) as int, 2, d) == BytesOutcome(2, d, set_);
      }
      ParseDelimited(field, m, tag, b, set_(b), e);
    }
  }

  /** What unmarshalling the encoding of `x` does to a message that already holds `m`: scalars
      and bytes that are set win, the nested message merges. */
  function MergeExtra(m: ExtraInfo, x: ExtraInfo): ExtraInfo {
    if x.uuid == [] then m else x
  }

  function MergeEx(m: Option<ExtraInfo>, x: Option<ExtraInfo>): Option<ExtraInfo> {
    if x.None? then m else Some(MergeExtra(if m.Some? then m.value else EMPTY_EXTRA, x.value))
  }

  function PickBytes(m: seq<byte>, x: seq<byte>): seq<byte> {
    if x == [] then m else x
  }

  function PickInt(m: int, x: int): int {
    if x == 0 then m else x
  }

  function MergeRequest(m: DBCommandRequest, x: DBCommandRequest): DBCommandRequest
    requires RequestOk(x)
  {
    DBCommandRequest(
      if x.taskType == 0 then m.taskType else x.taskType, PickInt(m.entityId, x.entityId),
      PickBytes(m.database, x.database), PickBytes(m.collection, x.collection),
      PickBytes(m.filter, x.filter), PickBytes(m.data, x.data),
      MergeEx(m.ex, x.ex), if x.dbType == 0 then m.dbType else x.dbType)
  }

  lemma ExtraRoundTrip(m: ExtraInfo, x: ExtraInfo)
    requires ExtraOk(x)
    ensures Parse(ExtraField, m, EncodeExtra(x)) == Ok(MergeExtra(m, x))
  {
    hide LenBytes, BytesField;
    ParseBytesField(ExtraField, m, 0xa, x.uuid, b => m.(uuid := b), []);
    assert BytesField(0xa, x.uuid) + [] == EncodeExtra(x);
  }

  lemma ParseExField(m: DBCommandRequest, ex: Option<ExtraInfo>, e: seq<byte>)
    requires ex.Some? ==> ExtraOk(ex.value)
    ensures Parse(RequestField, m, ExField(ex) + e) == Parse(RequestField, m.(ex := MergeEx(m.ex, ex)), e)
  {
    hide Parse, LenBytes, Delimited, EncodeExtra;
    if ex.None? {
      assert ExField(ex) + e == e;
    } else {
      var x := ex.value;
      var old_ := if m.ex.Some? then m.ex.value else EMPTY_EXTRA;
      ExtraRoundTrip(old_, x);
      ExtraShort(x);
      ParseDelimited(RequestField, m, 0x3a, EncodeExtra(x), m.(ex := Some(MergeExtra(old_, x))), e);
    }
  }

  lemma ExtraShort(x: ExtraInfo)
    requires ExtraOk(x)
    ensures |EncodeExtra(x)| < U64 / 2
  {
    FieldSizes(0xa, 0, x.uuid);
    SovAtMostTen(|x.uuid|);
  }

  lemma SovAtMostTen(v: nat)
    requires v < U64
    ensures Sov(v) <= 10
  {
    BitLenOrOne(v);
    Widths();
    if BitLen(v) > 64 && BitLen(v) > 65 {
      Pow2Monotone(64, BitLen(v) - 1);
    }
  }

  lemma ParseRequestInts(m: DBCommandRequest, taskType: nat, entityId: int, e: seq<byte>)
    requires taskType < U32 && IsI64(entityId)
    ensures Parse(RequestField, m, VarintField(0x8, taskType) + (VarintField(0x10, ToU64(entityId)) + e))
         == Parse(RequestField, m.(taskType := if taskType == 0 then m.taskType else taskType, entityId := PickInt(m.entityId, entityId)), e)
  {
    hide Parse, Varint, VarintField, Pow2;
    Widths();
    ParseVarintField(RequestField, m, 0x8, taskType, 32, v => m.(taskType := v), VarintField(0x10, ToU64(entityId)) + e);
    var m1 := m.(taskType := if taskType == 0 then m.taskType else taskType);
    SignedRoundTrip(entityId);
    ParseVarintField(RequestField, m1, 0x10, ToU64(entityId), 64, v => m1.(entityId := ToI64(v)), e);
  }

  lemma ParseRequestBytes(m: DBCommandRequest, x: DBCommandRequest, e: seq<byte>)
    requires RequestOk(x)
    ensures Parse(RequestField, m, BytesField(0x1a, x.database) + (BytesField(0x22, x.collection) + (BytesField(0x2a, x.filter) + (BytesField(0x32, x.data) + e))))
         == Parse(RequestField, m.(database := PickBytes(m.database, x.database), collection := PickBytes(m.collection, x.collection),
                                   filter := PickBytes(m.filter, x.filter), data := PickBytes(m.data, x.data)), e)
  {
    hide Parse, LenBytes, BytesField;
    var e3 := BytesField(0x32, x.data) + e;
    var e2 := BytesField(0x2a, x.filter) + e3;
    var e1 := BytesField(0x22, x.collection) + e2;
    ParseBytesField(RequestField, m, 0x1a, x.database, b => m.(database := b), e1);
    var m1 := m.(database := PickBytes(m.database, x.database));
    ParseBytesField(RequestField, m1, 0x22, x.collection, b => m1.(collection := b), e2);
    var m2 := m1.(collection := PickBytes(m.collection, x.collection));
    ParseBytesField(RequestField, m2, 0x2a, x.filter, b => m2.(filter := b), e3);
    var m3 := m2.(filter := PickBytes(m.filter, x.filter));
    ParseBytesField(RequestField, m3, 0x32, x.data, b => m3.(data := b), e);
  }

  /** Unmarshalling an encoding into a message merges the two, whatever the message held. */
  lemma RequestMerges(m: DBCommandRequest, x: DBCommandRequest)
    requires RequestOk(x)
    ensures Parse(RequestField, m, EncodeRequest(x)) == Ok(MergeRequest(m, x))
  {
    hide LenBytes, BytesField, VarintField, ExField, RequestField, Pow2, Varint, Delimited;
    var tail := VarintField(0x40, x.dbType);
    var ex := ExField(x.ex) + tail;
    var bytes := BytesField(0x1a, x.database) + (BytesField(0x22, x.collection) + (BytesField(0x2a, x.filter) + (BytesField(0x32, x.data) + ex)));
    ParseRequestInts(m, x.taskType, x.entityId, bytes);
    var m1 := m.(taskType := if x.taskType == 0 then m.taskType else x.taskType, entityId := PickInt(m.entityId, x.entityId));
    ParseRequestBytes(m1, x, ex);
    var m2 := m1.(database := PickBytes(m.database, x.database), collection := PickBytes(m.collection, x.collection),
                  filter := PickBytes(m.filter, x.filter), data := PickBytes(m.data, x.data));
    ParseExField(m2, x.ex, tail);
    var m3 := m2.(ex := MergeEx(m.ex, x.ex));
    ParseDbType(m3, x.dbType);
  }

  lemma ParseDbType(m: DBCommandRequest, v: nat)
    requires v < U32
    ensures Parse(RequestField, m, VarintField(0x40, v)) == Ok(m.(dbType := if v == 0 then m.dbType else v))
  {
    hide Varint, VarintField, Pow2, Parse;
    Widths();
    ParseEnd(RequestField, m.(dbType := if v == 0 then m.dbType else v));
    ParseVarintField(RequestField, m, 0x40, v, 32, n => m.(dbType := n), []);
    assert VarintField(0x40, v) + [] == VarintField(0x40, v);
  }

  /** Unmarshalling what was marshalled gives the message back, negative ids included. */
  lemma RequestRoundTrip(x: DBCommandRequest)
    requires RequestOk(x)
    ensures Parse(RequestField, EMPTY_REQUEST, EncodeRequest(x)) == Ok(x)
  {
    hide Parse;
    RequestMerges(EMPTY_REQUEST, x);
  }

  lemma {:induction false} ParseTargets(m: SetServerTimeOffset, ts: seq<seq<byte>>)
    requires forall t :: t in ts ==> |t| < U64 / 2
    ensures Parse(OffsetField, m, TargetsField(ts)) == Ok(m.(targets := m.targets + ts))
    decreases ts
  {
    hide LenBytes, Delimited, Parse;
    if ts == [] {
      ParseEnd(OffsetField, m);
      assert m.targets + ts == m.targets;
    } else {
      var m' := m.(targets := m.targets + [ts[0]]);
      ParseDelimited(OffsetField, m, 0x12, ts[0], m', TargetsField(ts[1..]));
      ParseTargets(m', ts[1..]);
      assert m.targets + ts == m'.targets + ts[1..];
    }
  }

  /** The repeated field is appended to what the message held. */
  lemma OffsetMerges(m: SetServerTimeOffset, x: SetServerTimeOffset)
    requires OffsetOk(x)
    ensures Parse(OffsetField, m, EncodeOffset(x))
         == Ok(SetServerTimeOffset(PickInt(m.offset, x.offset), m.targets + x.targets))
  {
    hide Parse, Varint, VarintField, Pow2, TargetsField;
    Widths();
    SignedRoundTrip(x.offset);
    ParseVarintField(OffsetField, m, 0x8, ToU64(x.offset), 32, v => m.(offset := ToI32(v)), TargetsField(x.targets));
    ParseTargets(m.(offset := PickInt(m.offset, x.offset)), x.targets);
  }

  lemma OffsetRoundTrip(x: SetServerTimeOffset)
    requires OffsetOk(x)
    ensures Parse(OffsetField, EMPTY_OFFSET, EncodeOffset(x)) == Ok(x)
  {
    hide Parse;
    OffsetMerges(EMPTY_OFFSET, x);
    assert [] + x.targets == x.targets;
  }

  /** Well-formed unknown fields between two parts of a request change nothing. */
  lemma RequestIgnoresForeign(m: DBCommandRequest, a: seq<byte>, fs: seq<Foreign>, b: seq<byte>)
    requires Parse(RequestField, m, a).Ok?
    requires forall f :: f in fs ==> WellFormed(f) && f.num > 8
    ensures Parse(RequestField, m, a + ForeignsBytes(fs) + b) == Parse(RequestField, m, a + b)
  {
    hide Parse, WellFormed, Regular;
    RequestRegular();
    InsertForeign(RequestField, m, a, fs, b);
  }

  lemma ExtraIgnoresForeign(m: ExtraInfo, a: seq<byte>, fs: seq<Foreign>, b: seq<byte>)
    requires Parse(ExtraField, m, a).Ok?
    requires forall f :: f in fs ==> WellFormed(f) && f.num > 1
    ensures Parse(ExtraField, m, a + ForeignsBytes(fs) + b) == Parse(ExtraField, m, a + b)
  {
    hide Parse, WellFormed, Regular;
    ExtraRegular();
    InsertForeign(ExtraField, m, a, fs, b);
  }

  lemma OffsetIgnoresForeign(m: SetServerTimeOffset, a: seq<byte>, fs: seq<Foreign>, b: seq<byte>)
    requires Parse(OffsetField, m, a).Ok?
    requires forall f :: f in fs ==> WellFormed(f) && f.num > 2
    ensures Parse(OffsetField, m, a + ForeignsBytes(fs) + b) == Parse(OffsetField, m, a + b)
  {
    hide Parse, WellFormed, Regular;
    OffsetRegular();
    InsertForeign(OffsetField, m, a, fs, b);
  }

  /** What the number fields of a request do with any value in them, cut to their width. */
  lemma RequestReadsNumbers(m: DBCommandRequest, v: nat, e: seq<byte>)
    requires v < 0x1_0000_0000_0000_0000
    ensures Parse(RequestField, m, [0x8] + VarintBytes(v) + e)
         == Parse(RequestField, m.(taskType := v % 0x1_0000_0000), e)
    ensures Parse(RequestField, m, [0x10] + VarintBytes(v) + e)
         == Parse(RequestField, m.(entityId := if v < 0x8000_0000_0000_0000 then v else v - 0x1_0000_0000_0000_0000), e)
    ensures Parse(RequestField, m, [0x40] + VarintBytes(v) + e)
         == Parse(RequestField, m.(dbType := v % 0x1_0000_0000), e)
  {
    hide Parse, Varint, VarintBytes, Pow2;
    Widths();
    ParseVarintRecord(RequestField, m, 0x8, v, 32, n => m.(taskType := n), e);
    ParseVarintRecord(RequestField, m, 0x10, v, 64, n => m.(entityId := ToI64(n)), e);
    ParseVarintRecord(RequestField, m, 0x40, v, 32, n => m.(dbType := n), e);
  }

  /** What its byte fields do with any bytes. */
  lemma RequestReadsBytes(m: DBCommandRequest, num: nat, b: seq<byte>, e: seq<byte>)
    requires 3 <= num <= 6 && |b| < 0x8000_0000_0000_0000
    ensures
      var m' := if num == 3 then m.(database := b) else if num == 4 then m.(collection := b)
                else if num == 5 then m.(filter := b) else m.(data := b);
      Parse(RequestField, m, [(num * 8 + 2) as byte] + VarintBytes(|b|) + b + e) == Parse(RequestField, m', e)
  {
    hide Parse, LenBytes, VarintBytes, Delimited;
    var m' := if num == 3 then m.(database := b) else if num == 4 then m.(collection := b)
              else if num == 5 then m.(filter := b) else m.(data := b);
    DelimitedIs((num * 8 + 2) as byte, b);
    ParseDelimited(RequestField, m, (num * 8 + 2) as byte, b, m', e);
  }

  /** The nested message: its uuid is field 1. */
  lemma RequestReadsExtra(m: DBCommandRequest, b: seq<byte>, e: seq<byte>)
    requires |b| < 0x4000_0000_0000_0000
    ensures var x := [0xa] + VarintBytes(|b|) + b;
            Parse(RequestField, m, [0x3a] + VarintBytes(|x|) + x + e) == Parse(RequestField, m.(ex := Some(ExtraInfo(b))), e)
  {
    hide Parse, LenBytes, VarintBytes, Delimited;
    var x := [0xa] + VarintBytes(|b|) + b;
    ExtraReads(if m.ex.Some? then m.ex.value else EMPTY_EXTRA, b, []);
    ExtraReads(ExtraInfo(b), [], []);
    ShortLength(b);
    assert x + [] == x;
    DelimitedIs(0x3a, x);
    ParseDelimited(RequestField, m, 0x3a, x, m.(ex := Some(ExtraInfo(b))), e);
  }

  lemma DelimitedIs(tag: byte, b: seq<byte>)
    ensures Delimited(tag, b) == [tag] + VarintBytes(|b|) + b
  {
  }

  lemma ShortLength(b: seq<byte>)
    requires |b| < 0x4000_0000_0000_0000
    ensures |VarintBytes(|b|)| <= 10
  {
    Widths();
    Pow2Monotone(64, 70);
    VarintLength(|b|, 10);
  }

  lemma ExtraReads(m: ExtraInfo, b: seq<byte>, e: seq<byte>)
    requires |b| < 0x8000_0000_0000_0000
    ensures Parse(ExtraField, m, [0xa] + VarintBytes(|b|) + b + e) == Parse(ExtraField, ExtraInfo(b), e)
    ensures Parse(ExtraField, m, []) == Ok(m)
  {
    hide LenBytes, VarintBytes;
    ParseDelimited(ExtraField, m, 0xa, b, ExtraInfo(b), e);
  }

  lemma OffsetReads(m: SetServerTimeOffset, v: nat, b: seq<byte>, e: seq<byte>)
    requires v < 0x1_0000_0000_0000_0000 && |b| < 0x8000_0000_0000_0000
    ensures
      var w := v % 0x1_0000_0000;
      Parse(OffsetField, m, [0x8] + VarintBytes(v) + e)
      == Parse(OffsetField, m.(offset := if w < 0x8000_0000 then w else w - 0x1_0000_0000), e)
    ensures Parse(OffsetField, m, [0x12] + VarintBytes(|b|) + b + e)
         == Parse(OffsetField, m.(targets := m.targets + [b]), e)
  {
    hide Parse, LenBytes, Varint, VarintBytes, Pow2;
    Widths();
    ParseVarintRecord(OffsetField, m, 0x8, v, 32, n => m.(offset := ToI32(n)), e);
    ParseDelimited(OffsetField, m, 0x12, b, m.(targets := m.targets + [b]), e);
  }

  /** A known field that comes with another wire type is refused. */
  lemma RequestRefuses(m: DBCommandRequest, num: nat, w: nat, e: seq<byte>)
    requires 1 <= num <= 8 && w < 8 && w != 4
    requires w != if num == 1 || num == 2 || num == 8 then 0 else 2
    ensures Parse(RequestField, m, [(num * 8 + w) as byte] + e) == Err(WrongWireType)
  {
    hide Varint, FieldNumber, WireType, SkipFrom;
    TagFront((num * 8 + w) as byte, e);
  }

  // ---------------------------------------------------------------- unmarshalling

  /** The length prefix, the checks on it, and the bytes it announces. */
  method ReadBytes(d: seq<byte>, start: nat) returns (r: Result<(seq<byte>, nat), ParseError>)
    requires start <= |d|
    ensures r == (match LenBytes(d[start..])
                  case Ok(p) => Ok((p.0, start + p.1))
                  case Err(e) => Err(e))
  {
    hide VarintFrom, Varint, ToI64;
    VarintAt(d, start, 64);
    var v := ReadVarint(d, start, 64);
    if v.Err? {
      return Err(v.error);
    }
    var (bits, iNdEx) := v.value;
    var length := ToI64(bits);
    if length < 0 {
      return Err(InvalidLength);
    }
    var postIndex := iNdEx + length;
    if postIndex > |d| {
      return Err(UnexpectedEOF);
    }
    assert d[start..][iNdEx - start..postIndex - start] == d[iNdEx..postIndex];
    return Ok((d[iNdEx..postIndex], postIndex));
  }

  /** The tag at `start`: field number, wire type, and where the field's bytes begin. */
  method ReadTag(d: seq<byte>, start: nat) returns (r: Result<(int, nat, nat), ParseError>)
    requires start < |d|
    ensures match Varint(d[start..], 64)
            case Err(e) => r == Err(e)
            case Ok((wire, n)) =>
              if WireType(wire) == 4 then r == Err(UnexpectedEndOfGroup)
              else if FieldNumber(wire) <= 0 then r == Err(IllegalTag)
              else r == Ok((FieldNumber(wire), WireType(wire), start + n))
  {
    hide VarintFrom, Varint, FieldNumber, WireType;
    VarintAt(d, start, 64);
    var v := ReadVarint(d, start, 64);
    if v.Err? {
      return Err(v.error);
    }
    var (wire, iNdEx) := v.value;
    if WireType(wire) == 4 {
      return Err(UnexpectedEndOfGroup);
    }
    if FieldNumber(wire) <= 0 {
      return Err(IllegalTag);
    }
    return Ok((FieldNumber(wire), WireType(wire), iNdEx));
  }

  /** Passes over the field at `start`. */
  method SkipAt(d: seq<byte>, start: nat) returns (r: Result<nat, ParseError>)
    requires start <= |d|
    ensures r == (match SkipFrom(d[start..], 0, 0)
                  case Err(e) => Err(e)
                  case Ok(k) => if k > |d| - start then Err(UnexpectedEOF) else Ok(start + k))
  {
    hide SkipFrom;
    var skippy := SkipMessage(d[start..]);
    if skippy.Err? {
      return Err(skippy.error);
    }
    if start + skippy.value > |d| {
      return Err(UnexpectedEOF);
    }
    return Ok(start + skippy.value);
  }

  /** One round of a field loop, seen from the specification. */
  lemma ParseRound<M>(field: FieldParser<M>, m: M, d: seq<byte>, start: nat)
    requires start < |d| && Varint(d[start..], 64).Ok?
    ensures
      var (wire, n) := Varint(d[start..], 64).value;
      var num, w := FieldNumber(wire), WireType(wire);
      w != 4 && num > 0 ==>
        match field(m, num, w, d[start + n..])
        case Bad(e) => Parse(field, m, d[start..]) == Err(e)
        case Set(m', k) => start + n + k <= |d| ==> Parse(field, m, d[start..]) == Parse(field, m', d[start + n + k..])
        case Unknown =>
          match SkipFrom(d[start..], 0, 0)
          case Err(e) => Parse(field, m, d[start..]) == Err(e)
          case Ok(k) =>
            if k > |d| - start then Parse(field, m, d[start..]) == Err(UnexpectedEOF)
            else Parse(field, m, d[start..]) == Parse(field, m, d[start + k..])
  {
    hide Varint, FieldNumber, WireType, SkipFrom;
    var (wire, n) := Varint(d[start..], 64).value;
    assert d[start..][n..] == d[start + n..];
    forall k: nat | start + k <= |d|
      ensures d[start..][k..] == d[start + k..]
    {
    }
  }

  method UnmarshalExtra(m0: ExtraInfo, d: seq<byte>) returns (r: Result<ExtraInfo, ParseError>)
    ensures r == Parse(ExtraField, m0, d)
  {
    hide Parse, Varint, LenBytes, SkipFrom, FieldNumber, WireType;
    var m, iNdEx := m0, 0;
    assert d[0..] == d;
    while iNdEx < |d|
      invariant iNdEx <= |d|
      invariant Parse(ExtraField, m0, d) == Parse(ExtraField, m, d[iNdEx..])
      decreases |d| - iNdEx
    {
      var preIndex := iNdEx;
      TagErrors(ExtraField, m, d[preIndex..]);
      var tag := ReadTag(d, iNdEx);
      if tag.Err? {
        return Err(tag.error);
      }
      ParseRound(ExtraField, m, d, preIndex);
      var (fieldNum, wireType, at) := tag.value;
      match fieldNum {
        case 1 =>
          if wireType != 2 {
            return Err(WrongWireType);
          }
          var b := ReadBytes(d, at);
          if b.Err? {
            return Err(b.error);
          }
          m := m.(uuid := b.value.0);
          iNdEx := b.value.1;
        case _ =>
          var next := SkipAt(d, preIndex);
          if next.Err? {
            return Err(next.error);
          }
          iNdEx := next.value;
      }
    }
    ParseEnd(ExtraField, m);
    assert d[iNdEx..] == [];
    return Ok(m);
  }

  lemma ParseEnd<M>(field: FieldParser<M>, m: M)
    ensures Parse(field, m, []) == Ok(m)
  {
  }

  lemma TagErrors<M>(field: FieldParser<M>, m: M, d: seq<byte>)
    requires d != []
    ensures match Varint(d, 64)
            case Err(e) => Parse(field, m, d) == Err(e)
            case Ok((wire, n)) =>
              && (WireType(wire) == 4 ==> Parse(field, m, d) == Err(UnexpectedEndOfGroup))
              && (WireType(wire) != 4 && FieldNumber(wire) <= 0 ==> Parse(field, m, d) == Err(IllegalTag))
  {
    hide Varint, FieldNumber, WireType, SkipFrom;
  }

  /** The body of a varint case: the wire type check and the reading loop. */
  method TakeVarint(d: seq<byte>, at: nat, w: nat, width: nat) returns (r: Result<(nat, nat), ParseError>)
    requires at <= |d|
    ensures r == if w != 0 then Err(WrongWireType) else Varint(d[at..], width)
  {
    hide VarintFrom, Varint;
    if w != 0 {
      return Err(WrongWireType);
    }
    VarintAt(d, at, width);
    var v := ReadVarint(d, at, width);
    if v.Err? {
      return Err(v.error);
    }
    return Ok((v.value.0, v.value.1 - at));
  }

  /** The body of a length-delimited case. */
  method TakeBytes(d: seq<byte>, at: nat, w: nat) returns (r: Result<(seq<byte>, nat), ParseError>)
    requires at <= |d|
    ensures r == if w != 2 then Err(WrongWireType) else LenBytes(d[at..])
  {
    hide LenBytes;
    if w != 2 {
      return Err(WrongWireType);
    }
    var b := ReadBytes(d, at);
    if b.Err? {
      return Err(b.error);
    }
    return Ok((b.value.0, b.value.1 - at));
  }

  /** The cases of the request's field switch. */
  method RequestCase(m: DBCommandRequest, fieldNum: int, w: nat, d: seq<byte>, at: nat) returns (out: FieldOutcome<DBCommandRequest>)
    requires at <= |d|
    ensures out == RequestField(m, fieldNum, w, d[at..])
  {
    hide Varint, LenBytes, Parse;
    match fieldNum {
      case 1 =>
        var v := TakeVarint(d, at, w, 32);
        out := if v.Ok? then Set(m.(taskType := v.value.0), v.value.1) else Bad(v.error);
      case 2 =>
        var v := TakeVarint(d, at, w, 64);
        out := if v.Ok? then Set(m.(entityId := ToI64(v.value.0)), v.value.1) else Bad(v.error);
      case 3 =>
        var b := TakeBytes(d, at, w);
        out := if b.Ok? then Set(m.(database := b.value.0), b.value.1) else Bad(b.error);
      case 4 =>
        var b := TakeBytes(d, at, w);
        out := if b.Ok? then Set(m.(collection := b.value.0), b.value.1) else Bad(b.error);
      case 5 =>
        var b := TakeBytes(d, at, w);
        out := if b.Ok? then Set(m.(filter := b.value.0), b.value.1) else Bad(b.error);
      case 6 =>
        var b := TakeBytes(d, at, w);
        out := if b.Ok? then Set(m.(data := b.value.0), b.value.1) else Bad(b.error);
      case 7 =>
        var b := TakeBytes(d, at, w);
        if b.Err? {
          return Bad(b.error);
        }
        var x := UnmarshalExtra(if m.ex.Some? then m.ex.value else EMPTY_EXTRA, b.value.0);
        out := if x.Ok? then Set(m.(ex := Some(x.value)), b.value.1) else Bad(x.error);
      case 8 =>
        var v := TakeVarint(d, at, w, 32);
        out := if v.Ok? then Set(m.(dbType := v.value.0), v.value.1) else Bad(v.error);
      case _ => out := FieldOutcome.Unknown;
    }
  }

  method UnmarshalRequest(m0: DBCommandRequest, d: seq<byte>) returns (r: Result<DBCommandRequest, ParseError>)
    ensures r == Parse(RequestField, m0, d)
  {
    hide Parse, Varint, LenBytes, SkipFrom, FieldNumber, WireType, RequestField;
    var m, iNdEx := m0, 0;
    assert d[0..] == d;
    while iNdEx < |d|
      invariant iNdEx <= |d|
      invariant Parse(RequestField, m0, d) == Parse(RequestField, m, d[iNdEx..])
      decreases |d| - iNdEx
    {
      TagErrors(RequestField, m, d[iNdEx..]);
      var tag := ReadTag(d, iNdEx);
      if tag.Err? {
        return Err(tag.error);
      }
      ParseRound(RequestField, m, d, iNdEx);
      var (fieldNum, wireType, at) := tag.value;
      var out := RequestCase(m, fieldNum, wireType, d, at);
      match out {
        case Bad(e) => return Err(e);
        case Set(m', used) =>
          RequestUses(m, fieldNum, wireType, d[at..]);
          m := m';
          iNdEx := at + used;
        case Unknown =>
          var next := SkipAt(d, iNdEx);
          if next.Err? {
            return Err(next.error);
          }
          iNdEx := next.value;
      }
    }
    ParseEnd(RequestField, m);
    assert d[iNdEx..] == [];
    return Ok(m);
  }

  lemma RequestUses(m: DBCommandRequest, num: int, w: nat, d: seq<byte>)
    ensures var out := RequestField(m, num, w, d); out.Set? ==> out.used <= |d|
  {
    hide Parse, Varint, LenBytes;
  }

  method UnmarshalOffset(m0: SetServerTimeOffset, d: seq<byte>) returns (r: Result<SetServerTimeOffset, ParseError>)
    ensures r == Parse(OffsetField, m0, d)
  {
    hide Parse, Varint, LenBytes, SkipFrom, FieldNumber, WireType;
    var m, iNdEx := m0, 0;
    assert d[0..] == d;
    while iNdEx < |d|
      invariant iNdEx <= |d|
      invariant Parse(OffsetField, m0, d) == Parse(OffsetField, m, d[iNdEx..])
      decreases |d| - iNdEx
    {
      var preIndex := iNdEx;
      TagErrors(OffsetField, m, d[preIndex..]);
      var tag := ReadTag(d, iNdEx);
      if tag.Err? {
        return Err(tag.error);
      }
      ParseRound(OffsetField, m, d, preIndex);
      var (fieldNum, wireType, at) := tag.value;
      match fieldNum {
        case 1 =>
          var v := TakeVarint(d, at, wireType, 32);
          if v.Err? {
            return Err(v.error);
          }
          m := m.(offset := ToI32(v.value.0));
          iNdEx := at + v.value.1;
        case 2 =>
          var b := TakeBytes(d, at, wireType);
          if b.Err? {
            return Err(b.error);
          }
          m := m.(targets := m.targets + [b.value.0]);
          iNdEx := at + b.value.1;
        case _ =>
          var next := SkipAt(d, preIndex);
          if next.Err? {
            return Err(next.error);
          }
          iNdEx := next.value;
      }
    }
    ParseEnd(OffsetField, m);
    assert d[iNdEx..] == [];
    return Ok(m);
  }

  /** End to end: what was marshalled into a buffer, read back, is the message. */
  method TransmitRequest(m: DBCommandRequest) returns (r: Result<DBCommandRequest, ParseError>)
    requires RequestOk(m)
    ensures r == Ok(m)
  {
    hide EncodeRequest, Parse;
    var b := Marshal(m);
    RequestRoundTrip(m);
    r := UnmarshalRequest(EMPTY_REQUEST, b);
  }
}

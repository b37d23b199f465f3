/** The length-prefixed message framing. */
module Protocol {
  import opened Common

  const MESSAGE_HEAD_LEN := 4
  const MESSAGE_MAX_LEN := 16 * 1024 * 1024

  datatype EncodeError = TooLongToEncode

  /** `NeedMore` stands for the (0, nil, nil) answer; `SliceFault` for the run-time fault of
      slicing `data[4:length]` when the announced length is below the header's own. */
  datatype Decoded = NeedMore | Frame(length: nat, data: seq<byte>) | TooLong | SliceFault

  function BigEndian32(v: nat): (b: seq<byte>)
    ensures |b| == MESSAGE_HEAD_LEN
  {
    [v / 0x100_0000 % 0x100, v / 0x1_0000 % 0x100, v / 0x100 % 0x100, v % 0x100]
  }

  function FromBigEndian32(b: seq<byte>): nat
    requires |b| >= MESSAGE_HEAD_LEN
  {
    (b[0] as int) * 0x100_0000 + (b[1] as int) * 0x1_0000 + (b[2] as int) * 0x100 + (b[3] as int)
  }

  function Encode(data: seq<byte>): Result<seq<byte>, EncodeError> {
    if |data| > MESSAGE_MAX_LEN then Err(TooLongToEncode)
    else Ok(BigEndian32(MESSAGE_HEAD_LEN + |data|) + data)
  }

  function Decode(data: seq<byte>): Decoded {
    if |data| < MESSAGE_HEAD_LEN then NeedMore
    else
      var length := FromBigEndian32(data);
      if |data| < length then NeedMore
      else if length > MESSAGE_MAX_LEN then TooLong
      else if length < MESSAGE_HEAD_LEN then SliceFault
      else Frame(length, data[MESSAGE_HEAD_LEN..length])
  }

  /** The four bytes of the head, the most significant first, announce the length of the whole
      frame; the message follows as it is. What can be encoded has at most 16 megabytes. */
  lemma HeadAnnouncesLength(m: seq<byte>)
    ensures Encode(m).Ok? <==> |m| <= 16_777_216
    ensures Encode(m).Ok? ==>
              var b := Encode(m).value;
              |b| == |m| + 4 && b[4..] == m
              && (b[0] as int) * 16_777_216 + (b[1] as int) * 65_536 + (b[2] as int) * 256 + (b[3] as int) == |m| + 4
  {
    if Encode(m).Ok? {
      var v := 4 + |m|;
      HeadRoundTrip(v);
      assert Encode(m).value[..4] == BigEndian32(v);
    }
  }

  /** What the decoder answers, for every content of the buffer. */
  lemma DecodeReadsHead(b: seq<byte>)
    ensures |b| < 4 ==> Decode(b) == NeedMore
    ensures |b| >= 4 ==>
              var length := (b[0] as int) * 16_777_216 + (b[1] as int) * 65_536 + (b[2] as int) * 256 + (b[3] as int);
              && (Decode(b) == NeedMore <==> |b| < length)
              && (Decode(b) == TooLong <==> 16_777_216 < length <= |b|)
              && (Decode(b) == SliceFault <==> length < 4)
              && (4 <= length <= |b| && length <= 16_777_216 ==> Decode(b) == Frame(length, b[4..length]))
  {
  }

  /** The largest message that survives the trip: `Encode` accepts four bytes more. */
  predicate Fits(m: seq<byte>) {
    |m| <= MESSAGE_MAX_LEN - MESSAGE_HEAD_LEN
  }

  /** Decoding an encoded message, whatever follows it, gives the message back exactly when it
      is at most `messageMaxLen - 4` bytes long; the four longest encodable sizes come back
      as an error. */
  lemma RoundTrip(m: seq<byte>, rest: seq<byte>)
    requires Encode(m).Ok?
    ensures Decode(Encode(m).value + rest) == if Fits(m) then Frame(MESSAGE_HEAD_LEN + |m|, m) else TooLong
  {
    var v := MESSAGE_HEAD_LEN + |m|;
    var all := Encode(m).value + rest;
    assert all[..4] == BigEndian32(v);
    HeadRoundTrip(v);
    assert FromBigEndian32(all) == v;
    assert all[MESSAGE_HEAD_LEN..v] == m;
  }

  lemma HeadRoundTrip(v: nat)
    requires v < 0x1_0000_0000
    ensures FromBigEndian32(BigEndian32(v)) == v
  {
    assert v == 0x100 * (v / 0x100) + v % 0x100;
    assert v / 0x100 == 0x100 * (v / 0x1_0000) + v / 0x100 % 0x100;
    assert v / 0x1_0000 == 0x100 * (v / 0x100_0000) + v / 0x1_0000 % 0x100;
    assert 0 <= v / 0x100_0000 < 0x100;
  }

  /** A message of which bytes are still missing is never mistaken for anything else. */
  lemma PartialFrame(m: seq<byte>, part: seq<byte>)
    requires Encode(m).Ok?
    requires part < Encode(m).value
    ensures Decode(part) == NeedMore
  {
    if |part| >= MESSAGE_HEAD_LEN {
      var v := MESSAGE_HEAD_LEN + |m|;
      assert part[..4] == Encode(m).value[..4] == BigEndian32(v);
      HeadRoundTrip(v);
      assert FromBigEndian32(part) == v;
    }
  }

  lemma HeadIsCanonical(b: seq<byte>)
    requires |b| >= MESSAGE_HEAD_LEN
    ensures BigEndian32(FromBigEndian32(b)) == b[..MESSAGE_HEAD_LEN]
  {
    var v := FromBigEndian32(b);
    assert v / 0x100 == (b[0] as int) * 0x1_0000 + (b[1] as int) * 0x100 + (b[2] as int);
    assert v / 0x1_0000 == (b[0] as int) * 0x100 + (b[1] as int);
    assert v / 0x100_0000 == b[0] as int;
  }

  /** A decoded frame can only have come from encoding its data. */
  lemma FrameIsEncoding(data: seq<byte>)
    requires Decode(data).Frame?
    ensures
      var f := Decode(data);
      f.length <= |data| && Encode(f.data) == Ok(data[..f.length])
  {
    var f := Decode(data);
    var v := FromBigEndian32(data);
    HeadIsCanonical(data);
    assert data[..v] == data[..4] + data[4..v];
  }
}

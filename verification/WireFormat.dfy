/** What all generated messages share: length-delimited values, skipping of unknown fields, and
    the field loop, which is generic in the fields a message knows. */
module WireFormat {
  import opened Common
  import opened BitOps
  import opened Varints

  /** A length-prefixed value at the front of `d`, and how many bytes it and its length take. */
  function LenBytes(d: seq<byte>): (r: Result<(seq<byte>, nat), ParseError>)
    ensures r.Ok? ==> |r.value.0| < r.value.1 <= |d|
  {
    match Varint(d, 64)
    case Err(e) => Err(e)
    case Ok((bits, n)) =>
      var length := ToI64(bits);
      if length < 0 then Err(InvalidLength)
      else if n + length > |d| then Err(UnexpectedEOF)
      else Ok((d[n..n + length], n + length))
  }

  function FieldNumber(wire: nat): int {
    ToI32(Shr(wire, 3) % U32)
  }

  function WireType(wire: nat): nat {
    And(wire, 0x7)
  }

  // ---------------------------------------------------------------- skipping

  datatype Skipped = Skipped(next: nat, depth: nat)

  /** Moves past one tag and what it announces; groups only change the depth. */
  function SkipOne(d: seq<byte>, i: nat, depth: nat): (r: Result<Skipped, ParseError>)
    requires i < |d|
    ensures r.Ok? ==> i < r.value.next
  {
    match VarintFrom(d, i, 0, 0, 64)
    case Err(e) => Err(e)
    case Ok((wire, j)) =>
      var w := WireType(wire);
      if w == 0 then
        match VarintFrom(d, j, 0, 0, 64) {
          case Err(e) => Err(e)
          case Ok((_, k)) => Ok(Skipped(k, depth))
        }
      else if w == 1 then Ok(Skipped(j + 8, depth))
      else if w == 2 then
        match VarintFrom(d, j, 0, 0, 64) {
          case Err(e) => Err(e)
          case Ok((bits, k)) => if ToI64(bits) < 0 then Err(InvalidLength) else Ok(Skipped(k + ToI64(bits), depth))
        }
      else if w == 3 then Ok(Skipped(j, depth + 1))
      else if w == 4 then (if depth == 0 then Err(UnexpectedEndOfGroup) else Ok(Skipped(j, depth - 1)))
      else if w == 5 then Ok(Skipped(j + 4, depth))
      else Err(IllegalWireType)
  }

  /** The position after the field that starts at `i`, `depth` groups being open. */
  function SkipFrom(d: seq<byte>, i: nat, depth: nat): (r: Result<nat, ParseError>)
    ensures r.Ok? ==> i < r.value
    decreases if i < |d| then |d| - i else 0
  {
    if i >= |d| then Err(UnexpectedEOF)
    else match SkipOne(d, i, depth)
      case Err(e) => Err(e)
      case Ok(s) => if s.depth == 0 then Ok(s.next) else SkipFrom(d, s.next, s.depth)
  }

  method SkipMessage(d: seq<byte>) returns (r: Result<nat, ParseError>)
    ensures r == SkipFrom(d, 0, 0)
  {
    hide VarintFrom, WireType, ToI64;
    var iNdEx, depth := 0, 0;
    while iNdEx < |d|
      invariant SkipFrom(d, 0, 0) == SkipFrom(d, iNdEx, depth)
      decreases |d| - iNdEx
    {
      var wire := ReadVarint(d, iNdEx, 64);
      if wire.Err? {
        return Err(wire.error);
      }
      iNdEx := wire.value.1;
      match WireType(wire.value.0) {
        case 0 =>
          var v := ReadVarint(d, iNdEx, 64);
          if v.Err? {
            return Err(v.error);
          }
          iNdEx := v.value.1;
        case 1 => iNdEx := iNdEx + 8;
        case 2 =>
          var v := ReadVarint(d, iNdEx, 64);
          if v.Err? {
            return Err(v.error);
          }
          var length := ToI64(v.value.0);
          if length < 0 {
            return Err(InvalidLength);
          }
          iNdEx := v.value.1 + length;
        case 3 => depth := depth + 1;
        case 4 =>
          if depth == 0 {
            return Err(UnexpectedEndOfGroup);
          }
          depth := depth - 1;
        case 5 => iNdEx := iNdEx + 4;
        case _ => return Err(IllegalWireType);
      }
      if depth == 0 {
        return Ok(iNdEx);
      }
    }
    return Err(UnexpectedEOF);
  }

  lemma SkipOneStable(d: seq<byte>, e: seq<byte>, i: nat, depth: nat)
    requires i < |d| && SkipOne(d, i, depth).Ok?
    ensures SkipOne(d + e, i, depth) == SkipOne(d, i, depth)
  {
    hide VarintFrom, WireType;
    VarintFromStable(d, e, i, 0, 0, 64);
    var j := VarintFrom(d, i, 0, 0, 64).value.1;
    if VarintFrom(d, j, 0, 0, 64).Ok? {
      VarintFromStable(d, e, j, 0, 0, 64);
    }
  }

  /** A field skipped within `d` is skipped the same when more bytes follow. */
  lemma {:induction false} SkipStable(d: seq<byte>, e: seq<byte>, i: nat, depth: nat)
    requires SkipFrom(d, i, depth).Ok? && SkipFrom(d, i, depth).value <= |d|
    ensures SkipFrom(d + e, i, depth) == SkipFrom(d, i, depth)
    decreases if i < |d| then |d| - i else 0
  {
    hide SkipOne;
    SkipOneStable(d, e, i, depth);
    var s := SkipOne(d, i, depth).value;
    if s.depth != 0 {
      SkipStable(d, e, s.next, s.depth);
    }
  }

  // ---------------------------------------------------------------- the field loop

  /** What a message makes of a field: it does not know the number, rejects it, or takes it,
      using so many bytes after the tag. */
  datatype FieldOutcome<M> = Unknown | Bad(error: ParseError) | Set(m: M, used: nat)

  /** The known fields of a message type: from the message so far, the field number, the wire
      type and the bytes after the tag. */
  type FieldParser<!M> = (M, int, nat, seq<byte>) -> FieldOutcome<M>

  /** Merges the fields encoded in `d` into `m`. */
  function Parse<M>(field: FieldParser<M>, m: M, d: seq<byte>): (r: Result<M, ParseError>)
    decreases |d|
  {
    if d == [] then Ok(m)
    else match Varint(d, 64)
      case Err(e) => Err(e)
      case Ok((wire, n)) =>
        var num, w := FieldNumber(wire), WireType(wire);
        if w == 4 then Err(UnexpectedEndOfGroup)
        else if num <= 0 then Err(IllegalTag)
        else match field(m, num, w, d[n..])
          case Bad(e) => Err(e)
          case Set(m', k) => if n + k > |d| then Err(UnexpectedEOF) else Parse(field, m', d[n + k..])
          case Unknown =>
            match SkipFrom(d, 0, 0)
            case Err(e) => Err(e)
            case Ok(k) => if k > |d| then Err(UnexpectedEOF) else Parse(field, m, d[k..])
  }

  /** A field parser looks only at the bytes it uses, and knows fields by their number. */
  ghost predicate Regular<M(!new)>(field: FieldParser<M>) {
    && (forall m, num, w, d, e {:trigger field(m, num, w, d + e)} ::
          field(m, num, w, d).Set? ==> field(m, num, w, d).used <= |d| && field(m, num, w, d + e) == field(m, num, w, d))
    && (forall m, num, w, d, e {:trigger field(m, num, w, d + e)} ::
          field(m, num, w, d).Unknown? ==> field(m, num, w, d + e).Unknown?)
  }

  /** Concatenated encodings merge: parsing `a + b` is parsing `a` and then `b`. */
  lemma {:induction false} ParseConcat<M(!new)>(field: FieldParser<M>, m: M, a: seq<byte>, b: seq<byte>)
    requires Regular(field) && Parse(field, m, a).Ok?
    ensures Parse(field, m, a + b) == Parse(field, Parse(field, m, a).value, b)
    decreases |a|
  {
    hide Varint, FieldNumber, WireType, SkipFrom;
    if a == [] {
      assert a + b == b;
    } else {
      VarintStable(a, b, 64);
      var (wire, n) := Varint(a, 64).value;
      var num, w := FieldNumber(wire), WireType(wire);
      assert (a + b)[n..] == a[n..] + b;
      match field(m, num, w, a[n..])
      case Set(m', k) =>
        assert (a + b)[n + k..] == a[n + k..] + b;
        ParseConcat(field, m', a[n + k..], b);
      case Unknown =>
        var k := SkipFrom(a, 0, 0).value;
        SkipStable(a, b, 0, 0);
        assert (a + b)[k..] == a[k..] + b;
        ParseConcat(field, m, a[k..], b);
    }
  }

  // ---------------------------------------------------------------- unknown fields

  /** Any well-formed field, groups included. */
  datatype Foreign =
    | FVarint(num: nat, v: nat)
    | FFixed64(num: nat, b: seq<byte>)
    | FBytes(num: nat, b: seq<byte>)
    | FGroup(num: nat, inner: seq<Foreign>)
    | FFixed32(num: nat, b: seq<byte>)

  const MAX_FIELD := 0x2000_0000

  ghost predicate WellFormed(f: Foreign) {
    && 1 <= f.num < MAX_FIELD
    && match f
       case FVarint(_, v) => v < U64
       case FFixed64(_, b) => |b| == 8
       case FBytes(_, b) => |b| < U64 / 2
       case FGroup(_, inner) => forall g :: g in inner ==> WellFormed(g)
       case FFixed32(_, b) => |b| == 4
  }

  function TagBytes(num: nat, w: nat): seq<byte> {
    VarintBytes(num * 8 + w)
  }

  function ForeignBytes(f: Foreign): (b: seq<byte>)
    ensures |b| > 0
  {
    match f
    case FVarint(num, v) => TagBytes(num, 0) + VarintBytes(v)
    case FFixed64(num, b) => TagBytes(num, 1) + b
    case FBytes(num, b) => TagBytes(num, 2) + VarintBytes(|b|) + b
    case FGroup(num, inner) => TagBytes(num, 3) + ForeignsBytes(inner) + TagBytes(num, 4)
    case FFixed32(num, b) => TagBytes(num, 5) + b
  }

  function ForeignsBytes(fs: seq<Foreign>): seq<byte> {
    if fs == [] then [] else ForeignBytes(fs[0]) + ForeignsBytes(fs[1..])
  }

  lemma TagParts(num: nat, w: nat)
    requires num < MAX_FIELD && w < 8
    ensures FieldNumber(num * 8 + w) == num && WireType(num * 8 + w) == w
  {
    var x := num * 8 + w;
    Widths();
    hide Pow2, Shr, And;
    ShrDivides(x, 3);
    AndMask(x, 3);
    DivModUnique(x, 8, num, w);
  }

  lemma VarintInside(p: seq<byte>, v: nat, e: seq<byte>)
    requires v < U64
    ensures VarintFrom(p + VarintBytes(v) + e, |p|, 0, 0, 64) == Ok((v, |p| + |VarintBytes(v)|))
  {
    hide VarintFrom, VarintBytes;
    Widths();
    VarintDecodes(v, e, 64);
    VarintAt(p + VarintBytes(v) + e, |p|, 64);
    assert (p + VarintBytes(v) + e)[|p|..] == VarintBytes(v) + e;
  }

  /** One field that is not a group is skipped exactly. */
  lemma SkipPlain(p: seq<byte>, f: Foreign, e: seq<byte>, depth: nat)
    requires WellFormed(f) && !f.FGroup?
    ensures SkipOne(p + ForeignBytes(f) + e, |p|, depth) == Ok(Skipped(|p| + |ForeignBytes(f)|, depth))
  {
    hide VarintFrom, VarintBytes, WireType, FieldNumber;
    var d := p + ForeignBytes(f) + e;
    var w := match f case FVarint(_, _) => 0 case FFixed64(_, _) => 1 case FBytes(_, _) => 2 case FFixed32(_, _) => 5;
    TagParts(f.num, w);
    var tag := TagBytes(f.num, w);
    var body := ForeignBytes(f)[|tag|..];
    assert d == p + tag + (body + e);
    VarintInside(p, f.num * 8 + w, body + e);
    match f {
      case FVarint(_, v) =>
        assert d == (p + tag) + VarintBytes(v) + e;
        VarintInside(p + tag, v, e);
      case FBytes(_, b) =>
        assert d == (p + tag) + VarintBytes(|b|) + (b + e);
        VarintInside(p + tag, |b|, b + e);
      case _ =>
    }
  }

  /** The tag of a group goes one group deeper, or, at its end, back. */
  lemma SkipGroupTag(p: seq<byte>, num: nat, w: nat, e: seq<byte>, depth: nat)
    requires 1 <= num < MAX_FIELD && (w == 3 || (w == 4 && depth > 0))
    ensures
      SkipOne(p + TagBytes(num, w) + e, |p|, depth)
      == Ok(Skipped(|p| + |TagBytes(num, w)|, if w == 3 then depth + 1 else depth - 1))
  {
    hide VarintFrom, VarintBytes, WireType, FieldNumber;
    TagParts(num, w);
    VarintInside(p, num * 8 + w, e);
  }

  /** One tag at the front and what it announces, by wire type. */
  lemma SkipTag(num: nat, w: nat, e: seq<byte>)
    requires 1 <= num < MAX_FIELD && w < 8
    ensures
      var n := |VarintBytes(num * 8 + w)|;
      SkipFrom(VarintBytes(num * 8 + w) + e, 0, 0) ==
      if w == 0 then (match Varint(e, 64) case Err(x) => Err(x) case Ok(p) => Ok(n + p.1))
      else if w == 1 then Ok(n + 8)
      else if w == 2 then (match Varint(e, 64)
                           case Err(x) => Err(x)
                           case Ok(p) => if ToI64(p.0) < 0 then Err(InvalidLength) else Ok(n + p.1 + ToI64(p.0)))
      else if w == 3 then SkipFrom(VarintBytes(num * 8 + w) + e, n, 1)
      else if w == 4 then Err(UnexpectedEndOfGroup)
      else if w == 5 then Ok(n + 4)
      else Err(IllegalWireType)
  {
    hide VarintFrom, VarintBytes, WireType, FieldNumber;
    TagParts(num, w);
    var tag := VarintBytes(num * 8 + w);
    assert [] + tag + e == tag + e;
    VarintInside([], num * 8 + w, e);
    VarintAt(tag + e, |tag|, 64);
    assert (tag + e)[|tag|..] == e;
  }

  /** How the fields look: the tag is the field number and, in its lowest three bits, the wire type. */
  lemma FieldsOnTheWire(num: nat, v: nat, b: seq<byte>, inner: seq<Foreign>)
    ensures ForeignBytes(FVarint(num, v)) == VarintBytes(num * 8) + VarintBytes(v)
    ensures ForeignBytes(FFixed64(num, b)) == VarintBytes(num * 8 + 1) + b
    ensures ForeignBytes(FBytes(num, b)) == VarintBytes(num * 8 + 2) + VarintBytes(|b|) + b
    ensures ForeignBytes(FGroup(num, inner)) == VarintBytes(num * 8 + 3) + ForeignsBytes(inner) + VarintBytes(num * 8 + 4)
    ensures ForeignBytes(FFixed32(num, b)) == VarintBytes(num * 8 + 5) + b
    ensures WellFormed(FFixed64(num, b)) <==> 1 <= num < 0x2000_0000 && |b| == 8
    ensures WellFormed(FFixed32(num, b)) <==> 1 <= num < 0x2000_0000 && |b| == 4
  {
    hide VarintBytes, ForeignsBytes;
  }

  /** A well-formed field is skipped exactly, whatever is nested in it. */
  lemma {:induction false} SkipForeign(p: seq<byte>, f: Foreign, e: seq<byte>, depth: nat)
    requires WellFormed(f)
    ensures
      var d := p + ForeignBytes(f) + e;
      var next := |p| + |ForeignBytes(f)|;
      SkipFrom(d, |p|, depth) == if depth == 0 then Ok(next) else SkipFrom(d, next, depth)
    decreases f, 0
  {
    hide VarintFrom, VarintBytes, WireType, FieldNumber, SkipOne;
    var d := p + ForeignBytes(f) + e;
    if f.FGroup? {
      var open, close, inside := TagBytes(f.num, 3), TagBytes(f.num, 4), ForeignsBytes(f.inner);
      assert d == p + open + (inside + close + e);
      SkipGroupTag(p, f.num, 3, inside + close + e, depth);
      assert d == (p + open) + inside + (close + e);
      SkipForeigns(p + open, f.inner, close + e, depth + 1);
      assert d == (p + open + inside) + close + e;
      SkipGroupTag(p + open + inside, f.num, 4, e, depth + 1);
    } else {
      SkipPlain(p, f, e, depth);
    }
  }

  lemma {:induction false} SkipForeigns(p: seq<byte>, fs: seq<Foreign>, e: seq<byte>, depth: nat)
    requires depth > 0 && forall f :: f in fs ==> WellFormed(f)
    ensures
      var d := p + ForeignsBytes(fs) + e;
      SkipFrom(d, |p|, depth) == SkipFrom(d, |p| + |ForeignsBytes(fs)|, depth)
    decreases fs, 1
  {
    hide VarintFrom, VarintBytes, WireType, FieldNumber, SkipFrom, WellFormed;
    if fs != [] {
      var first, rest := ForeignBytes(fs[0]), ForeignsBytes(fs[1..]);
      var d := p + ForeignsBytes(fs) + e;
      assert d == p + first + (rest + e);
      SkipForeign(p, fs[0], rest + e, depth);
      assert d == (p + first) + rest + e;
      SkipForeigns(p + first, fs[1..], e, depth);
    }
  }

  function ForeignWire(f: Foreign): nat {
    match f
    case FVarint(_, _) => 0
    case FFixed64(_, _) => 1
    case FBytes(_, _) => 2
    case FGroup(_, _) => 3
    case FFixed32(_, _) => 5
  }

  lemma ForeignStartsWithTag(f: Foreign)
    ensures VarintBytes(f.num * 8 + ForeignWire(f)) <= ForeignBytes(f)
  {
    hide VarintBytes, ForeignsBytes;
  }

  lemma ForeignFront(f: Foreign, e: seq<byte>)
    requires WellFormed(f)
    ensures
      var d := ForeignBytes(f) + e;
      var wire := f.num * 8 + ForeignWire(f);
      && Varint(d, 64) == Ok((wire, |VarintBytes(wire)|))
      && FieldNumber(wire) == f.num && WireType(wire) == ForeignWire(f)
      && SkipFrom(d, 0, 0) == Ok(|ForeignBytes(f)|)
  {
    hide Varint, VarintFrom, VarintBytes, WireType, FieldNumber, SkipFrom, ForeignBytes, WellFormed;
    var d := ForeignBytes(f) + e;
    var wire := f.num * 8 + ForeignWire(f);
    FieldRange(f);
    TagParts(f.num, ForeignWire(f));
    ForeignStartsWithTag(f);
    Widths();
    FrontTag(ForeignBytes(f), wire, e);
    SkipForeign([], f, e, 0);
    assert [] + ForeignBytes(f) + e == d;
  }

  lemma FrontTag(b: seq<byte>, wire: nat, e: seq<byte>)
    requires wire < U64 && |VarintBytes(wire)| <= |b| && b[..|VarintBytes(wire)|] == VarintBytes(wire)
    ensures Varint(b + e, 64) == Ok((wire, |VarintBytes(wire)|))
  {
    hide Varint, VarintBytes;
    Widths();
    var tag := VarintBytes(wire);
    assert b + e == tag + (b[|tag|..] + e);
    VarintDecodes(wire, b[|tag|..] + e, 64);
  }

  /** A well-formed field with a number the message does not know is passed over. */
  lemma ParseForeign<M(!new)>(field: FieldParser<M>, m: M, f: Foreign, e: seq<byte>)
    requires WellFormed(f)
    requires forall m', w, d :: field(m', f.num, w, d).Unknown?
    ensures Parse(field, m, ForeignBytes(f) + e) == Parse(field, m, e)
  {
    hide Varint, VarintFrom, VarintBytes, WireType, FieldNumber, SkipFrom, ForeignBytes, WellFormed;
    ForeignFront(f, e);
    FieldRange(f);
    var d := ForeignBytes(f) + e;
    assert d[|ForeignBytes(f)|..] == e;
  }

  lemma FieldRange(f: Foreign)
    requires WellFormed(f)
    ensures 1 <= f.num < MAX_FIELD
  {
  }

  /** Inserting well-formed unknown fields between any two fields of a message changes nothing. */
  lemma {:induction false} InsertForeign<M(!new)>(field: FieldParser<M>, m: M, a: seq<byte>, fs: seq<Foreign>, b: seq<byte>)
    requires Regular(field) && Parse(field, m, a).Ok?
    requires forall f :: f in fs ==> WellFormed(f) && forall m', w, d :: field(m', f.num, w, d).Unknown?
    ensures Parse(field, m, a + ForeignsBytes(fs) + b) == Parse(field, m, a + b)
  {
    hide Parse, WellFormed, ForeignBytes, Regular;
    ParseConcat(field, m, a, b);
    var m' := Parse(field, m, a).value;
    ParseConcat(field, m, a, ForeignsBytes(fs) + b);
    assert a + ForeignsBytes(fs) + b == a + (ForeignsBytes(fs) + b);
    ForeignsOnly(field, m', fs, b);
  }

  lemma {:induction false} ForeignsOnly<M(!new)>(field: FieldParser<M>, m: M, fs: seq<Foreign>, b: seq<byte>)
    requires forall f :: f in fs ==> WellFormed(f) && forall m', w, d :: field(m', f.num, w, d).Unknown?
    ensures Parse(field, m, ForeignsBytes(fs) + b) == Parse(field, m, b)
  {
    hide Parse, WellFormed, ForeignBytes;
    if fs == [] {
      assert ForeignsBytes(fs) + b == b;
    } else {
      assert fs[0] in fs;
      ForeignsOnly(field, m, fs[1..], b);
      ParseForeign(field, m, fs[0], ForeignsBytes(fs[1..]) + b);
      assert ForeignsBytes(fs) + b == ForeignBytes(fs[0]) + (ForeignsBytes(fs[1..]) + b);
    }
  }
}

/** The Lua JSON printer and parser over byte strings. Positions count from 0, one below Lua's. */
module Json {
  import opened Common

  // ---------------------------------------------------------------- values

  datatype Key = At(i: nat) | Named(s: seq<byte>)

  /** A Lua value. An entry that is nil is an absent entry. */
  datatype Value = Nil | Bool(b: bool) | Num(n: int) | Str(s: seq<byte>) | Table(entries: map<Key, Value>)

  /** A value the way the printer walks it: a table's fields in the order `pairs` yields them. */
  datatype Node =
    | NBool(b: bool)
    | NNum(n: int)
    | NStr(s: seq<byte>)
    | NArr(items: seq<Node>)
    | NObj(fields: seq<Field>)

  datatype Field = Field(key: seq<byte>, val: Node)

  /** Integers that "%.14g" prints without exponent. */
  const NUM_LIMIT := 100_000_000_000_000

  /** `n` is `v` walked in some order: an array has the keys 1 to its length, an object has
      string keys only and at least one. */
  ghost predicate Represents(v: Value, n: Node)
    decreases n
  {
    match n
    case NBool(b) => v == Bool(b)
    case NNum(k) => v == Num(k) && -NUM_LIMIT < k < NUM_LIMIT
    case NStr(s) => v == Str(s)
    case NArr(items) =>
      && v.Table?
      && (forall k :: k in v.entries ==> k.At? && 1 <= k.i <= |items|)
      && (forall i {:trigger items[i]} :: 0 <= i < |items| ==> At(i + 1) in v.entries && Represents(v.entries[At(i + 1)], items[i]))
    case NObj(fields) =>
      && v.Table? && fields != []
      && (forall k :: k in v.entries ==> k.Named? && exists i :: 0 <= i < |fields| && fields[i].key == k.s)
      && (forall i, j :: 0 <= i < j < |fields| ==> fields[i].key != fields[j].key)
      && (forall i :: 0 <= i < |fields| ==> Named(fields[i].key) in v.entries && Represents(v.entries[Named(fields[i].key)], fields[i].val))
  }

  // ---------------------------------------------------------------- the printer

  const QUOTE: byte := 34
  const BACKSLASH: byte := 92
  const COMMA: byte := 44
  const COLON: byte := 58
  const OPEN_BRACKET: byte := 91
  const CLOSE_BRACKET: byte := 93
  const OPEN_BRACE: byte := 123
  const CLOSE_BRACE: byte := 125
  const LOWER_U: byte := 117

  const TRUE_WORD: seq<byte> := [116, 114, 117, 101]
  const FALSE_WORD: seq<byte> := [102, 97, 108, 115, 101]
  const NULL_WORD: seq<byte> := [110, 117, 108, 108]

  /** The letter after the backslash for the characters that have one. */
  function EscapeLetter(c: byte): Option<byte> {
    if c == 92 then Some(92)
    else if c == 34 then Some(34)
    else if c == 8 then Some(98)
    else if c == 12 then Some(102)
    else if c == 10 then Some(110)
    else if c == 13 then Some(114)
    else if c == 9 then Some(116)
    else None
  }

  /** The character behind an escape letter; the slash is known only here. */
  function UnescapeLetter(c: byte): Option<byte> {
    if c == 92 then Some(92)
    else if c == 34 then Some(34)
    else if c == 98 then Some(8)
    else if c == 102 then Some(12)
    else if c == 110 then Some(10)
    else if c == 114 then Some(13)
    else if c == 116 then Some(9)
    else if c == 47 then Some(47)
    else None
  }

  /** A lower-case hexadecimal digit. */
  function HexDigit(v: nat): byte
    requires v < 16
  {
    if v < 10 then 48 + v else 87 + v
  }

  function EscapeChar(c: byte): (r: seq<byte>)
    ensures |r| > 0
  {
    if EscapeLetter(c).Some? then [BACKSLASH, EscapeLetter(c).value]
    else [BACKSLASH, LOWER_U, 48, 48, HexDigit(c as int / 16), HexDigit(c as int % 16)]
  }

  /** The characters the printer replaces: controls, the backslash and the quote. */
  predicate MustEscape(c: byte) {
    c < 32 || c == BACKSLASH || c == QUOTE
  }

  function EscapeAll(s: seq<byte>): seq<byte> {
    if s == [] then [] else (if MustEscape(s[0]) then EscapeChar(s[0]) else [s[0]]) + EscapeAll(s[1..])
  }

  function EncodeString(s: seq<byte>): seq<byte> {
    [QUOTE] + EscapeAll(s) + [QUOTE]
  }

  function Digits(n: nat): (r: seq<byte>)
    ensures |r| > 0
    ensures forall i :: 0 <= i < |r| ==> 48 <= r[i] <= 57
  {
    if n < 10 then [48 + n] else Digits(n / 10) + [48 + n % 10]
  }

  function EncodeNumber(n: int): seq<byte> {
    if n < 0 then [45] + Digits(-n) else Digits(n)
  }

  function Encode(n: Node): seq<byte> {
    match n
    case NBool(b) => if b then TRUE_WORD else FALSE_WORD
    case NNum(k) => EncodeNumber(k)
    case NStr(s) => EncodeString(s)
    case NArr(items) => [OPEN_BRACKET] + EncodeItems(items) + [CLOSE_BRACKET]
    case NObj(fields) => [OPEN_BRACE] + EncodeFields(fields) + [CLOSE_BRACE]
  }

  function EncodeItems(items: seq<Node>): seq<byte> {
    if items == [] then []
    else if |items| == 1 then Encode(items[0])
    else Encode(items[0]) + [COMMA] + EncodeItems(items[1..])
  }

  function EncodeField(f: Field): seq<byte> {
    EncodeString(f.key) + [COLON] + Encode(f.val)
  }

  function EncodeFields(fields: seq<Field>): seq<byte> {
    if fields == [] then []
    else if |fields| == 1 then EncodeField(fields[0])
    else EncodeField(fields[0]) + [COMMA] + EncodeFields(fields[1..])
  }

  /** `table.concat` with a comma between the parts. */
  function Joined(parts: seq<seq<byte>>): seq<byte> {
    if parts == [] then []
    else if |parts| == 1 then parts[0]
    else parts[0] + [COMMA] + Joined(parts[1..])
  }

  lemma {:induction false} JoinedItems(items: seq<Node>, parts: seq<seq<byte>>)
    requires |parts| == |items| && forall i :: 0 <= i < |items| ==> parts[i] == Encode(items[i])
    ensures Joined(parts) == EncodeItems(items)
  {
    if |items| > 1 {
      JoinedItems(items[1..], parts[1..]);
    }
  }

  lemma {:induction false} JoinedFields(fields: seq<Field>, parts: seq<seq<byte>>)
    requires |parts| == |fields| && forall i :: 0 <= i < |fields| ==> parts[i] == EncodeField(fields[i])
    ensures Joined(parts) == EncodeFields(fields)
  {
    if |fields| > 1 {
      JoinedFields(fields[1..], parts[1..]);
    }
  }

  /** The printer: the parts of a table are collected in a list and joined. */
  method EncodeValue(n: Node) returns (r: seq<byte>)
    ensures r == Encode(n)
    decreases n
  {
    match n {
      case NBool(b) =>
        r := if b then TRUE_WORD else FALSE_WORD;
      case NNum(k) =>
        r := EncodeNumber(k);
      case NStr(s) =>
        r := EncodeString(s);
      case NArr(items) =>
        var res: seq<seq<byte>> := [];
        for i := 0 to |items|
          invariant |res| == i && forall j :: 0 <= j < i ==> res[j] == Encode(items[j])
        {
          var part := EncodeValue(items[i]);
          res := res + [part];
        }
        JoinedItems(items, res);
        r := [OPEN_BRACKET] + Joined(res) + [CLOSE_BRACKET];
      case NObj(fields) =>
        var res: seq<seq<byte>> := [];
        for i := 0 to |fields|
          invariant |res| == i && forall j :: 0 <= j < i ==> res[j] == EncodeField(fields[j])
        {
          var part := EncodeValue(fields[i].val);
          res := res + [EncodeString(fields[i].key) + [COLON] + part];
        }
        JoinedFields(fields, res);
        r := [OPEN_BRACE] + Joined(res) + [CLOSE_BRACE];
    }
  }

  // ---------------------------------------------------------------- scanning

  predicate IsSpace(c: byte) {
    c == 32 || c == 9 || c == 13 || c == 10
  }

  predicate IsDelim(c: byte) {
    IsSpace(c) || c == CLOSE_BRACKET || c == CLOSE_BRACE || c == COMMA
  }

  /** The first position from `i` on that holds no space, or the end. */
  function SkipSpaces(s: seq<byte>, i: nat): (r: nat)
    requires i <= |s|
    ensures i <= r <= |s|
    decreases |s| - i
  {
    if i < |s| && IsSpace(s[i]) then SkipSpaces(s, i + 1) else i
  }

  /** The first position from `i` on that holds a delimiter, or the end. */
  function FindDelim(s: seq<byte>, i: nat): (r: nat)
    requires i <= |s|
    ensures i <= r <= |s|
    decreases |s| - i
  {
    if i < |s| && !IsDelim(s[i]) then FindDelim(s, i + 1) else i
  }

  /** `str:sub(i, i)`: the character, or nothing past the end. */
  function CharAt(s: seq<byte>, i: nat): Option<byte> {
    if i < |s| then Some(s[i]) else None
  }

  /** The scanning loop of both searches: `spaces` and `negate` pick the set and its sense. */
  method NextChar(s: seq<byte>, idx: nat, spaces: bool, negate: bool) returns (r: nat)
    requires idx <= |s|
    ensures spaces && negate ==> r == SkipSpaces(s, idx)
    ensures !spaces && !negate ==> r == FindDelim(s, idx)
  {
    for i := idx to |s|
      invariant spaces && negate ==> SkipSpaces(s, idx) == SkipSpaces(s, i)
      invariant !spaces && !negate ==> FindDelim(s, idx) == FindDelim(s, i)
    {
      var in_ := if spaces then IsSpace(s[i]) else IsDelim(s[i]);
      if in_ != negate {
        return i;
      }
    }
    return |s|;
  }

  datatype Why =
    | ControlCharacter | BadUnicodeEscape | BadEscape | NoClosingQuote | BadNumber | BadLiteral
    | ExpectedArrayEnd | ExpectedKey | ExpectedColon | ExpectedObjectEnd | UnexpectedCharacter
    | TrailingGarbage | BadCodepoint

  /** A parser's answer: a value and the position after it, an error, or a numeral whose value
      is not an integer the model can give (a fraction, an exponent, hexadecimal, too long). */
  datatype Parsed<+T> = Done(value: T, next: nat) | Fail(at: nat, why: Why) | OtherNumeral(at: nat)

  // ---------------------------------------------------------------- strings

  function HexValue(c: byte): Option<nat> {
    if 48 <= c <= 57 then Some((c - 48) as nat)
    else if 97 <= c <= 102 then Some((c - 87) as nat)
    else if 65 <= c <= 70 then Some((c - 55) as nat)
    else None
  }

  predicate Hex4At(s: seq<byte>, i: nat) {
    i + 4 <= |s| && HexValue(s[i]).Some? && HexValue(s[i + 1]).Some? && HexValue(s[i + 2]).Some? && HexValue(s[i + 3]).Some?
  }

  function Hex4(s: seq<byte>, i: nat): (n: nat)
    requires Hex4At(s, i)
    ensures n < 0x10000
  {
    HexValue(s[i]).value * 0x1000 + HexValue(s[i + 1]).value * 0x100 + HexValue(s[i + 2]).value * 0x10 + HexValue(s[i + 3]).value
  }

  /** The pattern of a surrogate pair: only the first half is checked to be a surrogate. */
  predicate PairAt(s: seq<byte>, i: nat) {
    && Hex4At(s, i)
    && (s[i] == 100 || s[i] == 68)
    && (s[i + 1] == 56 || s[i + 1] == 57 || s[i + 1] == 97 || s[i + 1] == 65 || s[i + 1] == 98 || s[i + 1] == 66)
    && i + 10 <= |s| && s[i + 4] == BACKSLASH && s[i + 5] == LOWER_U
    && Hex4At(s, i + 6)
  }

  /** The bytes of a code point; nothing (an error) above the last one. */
  function CodepointToUtf8(n: nat): Option<seq<byte>> {
    if n <= 0x7f then Some([n])
    else if n <= 0x7ff then Some([n / 64 + 192, n % 64 + 128])
    else if n <= 0xffff then Some([n / 4096 + 224, n % 4096 / 64 + 128, n % 64 + 128])
    else if n <= 0x10ffff then Some([n / 262144 + 240, n % 262144 / 4096 + 128, n % 4096 / 64 + 128, n % 64 + 128])
    else None
  }

  /** The number an escape stands for: of a pair, the two halves combined. */
  function EscapedCodepoint(s: seq<byte>, i: nat): nat
    requires Hex4At(s, i)
  {
    if PairAt(s, i) then
      PairRange(s, i);
      (Hex4(s, i) - 0xd800) * 0x400 + Hex4(s, i + 6) - 0xdc00 + 0x10000
    else Hex4(s, i)
  }

  lemma PairRange(s: seq<byte>, i: nat)
    requires PairAt(s, i)
    ensures 0xd800 <= Hex4(s, i) <= 0xdbff
  {
  }

  /** The rest of a string literal from position `j`, `res` being what came before it.
      `start` is where the literal began. */
  function StringRest(s: seq<byte>, start: nat, j: nat, res: seq<byte>): (r: Parsed<seq<byte>>)
    requires j <= |s|
    ensures r.Done? ==> j < r.next <= |s|
    decreases |s| - j
  {
    if j >= |s| then Fail(start, NoClosingQuote)
    else
      var x := s[j];
      if x < 32 then Fail(j, ControlCharacter)
      else if x == BACKSLASH then
        var c := CharAt(s, j + 1);
        if c == Some(LOWER_U) then
          if !Hex4At(s, j + 2) then Fail(j, BadUnicodeEscape)
          else
            var u := CodepointToUtf8(EscapedCodepoint(s, j + 2));
            if u.None? then Fail(j, BadCodepoint)
            else StringRest(s, start, j + 2 + (if PairAt(s, j + 2) then 10 else 4), res + u.value)
        else if c.None? || UnescapeLetter(c.value).None? then Fail(j, BadEscape)
        else StringRest(s, start, j + 2, res + [UnescapeLetter(c.value).value])
      else if x == QUOTE then Done(res, j + 1)
      else StringRest(s, start, j + 1, res + [x])
  }

  function ParseString(s: seq<byte>, i: nat): (r: Parsed<seq<byte>>)
    requires i < |s|
    ensures r.Done? ==> i < r.next <= |s|
  {
    StringRest(s, i, i + 1, [])
  }

  /** The string loop of the parser: `k` is where the plain run not yet copied begins. */
  method ParseStringLoop(s: seq<byte>, i: nat) returns (r: Parsed<seq<byte>>)
    requires i < |s|
    ensures r == ParseString(s, i)
  {
    hide CodepointToUtf8, EscapedCodepoint, UnescapeLetter, HexValue, Hex4;
    var res: seq<byte> := [];
    var j := i + 1;
    var k := j;
    assert res + s[k..j] == [];
    while j < |s|
      invariant i < k <= j <= |s|
      invariant ParseString(s, i) == StringRest(s, i, j, res + s[k..j])
      decreases |s| - j
    {
      var x := s[j];
      if x < 32 {
        return Fail(j, ControlCharacter);
      } else if x == BACKSLASH {
        res := res + s[k..j];
        j := j + 1;
        var c := CharAt(s, j);
        if c == Some(LOWER_U) {
          var hex;
          if PairAt(s, j + 1) {
            hex := 10;
          } else if Hex4At(s, j + 1) {
            hex := 4;
          } else {
            return Fail(j - 1, BadUnicodeEscape);
          }
          var u := CodepointToUtf8(EscapedCodepoint(s, j + 1));
          if u.None? {
            return Fail(j - 1, BadCodepoint);
          }
          res := res + u.value;
          j := j + hex;
        } else {
          if c.None? || UnescapeLetter(c.value).None? {
            return Fail(j - 1, BadEscape);
          }
          res := res + [UnescapeLetter(c.value).value];
        }
        k := j + 1;
        assert res + s[k..j + 1] == res;
      } else if x == QUOTE {
        res := res + s[k..j];
        return Done(res, j + 1);
      } else {
        assert res + s[k..j + 1] == (res + s[k..j]) + [x];
      }
      j := j + 1;
    }
    return Fail(i, NoClosingQuote);
  }

  // ---------------------------------------------------------------- numbers and literals

  predicate AllDigits(s: seq<byte>) {
    forall i :: 0 <= i < |s| ==> 48 <= s[i] <= 57
  }

  function DigitsValue(s: seq<byte>): nat
    requires AllDigits(s)
  {
    if s == [] then 0 else DigitsValue(s[..|s| - 1]) * 10 + (s[|s| - 1] - 48) as nat
  }

  /** A numeral for an integer that a double holds exactly. */
  predicate IntegerNumeral(s: seq<byte>) {
    var d := if s != [] && s[0] == 45 then s[1..] else s;
    0 < |d| <= 15 && AllDigits(d)
  }

  function IntegerValue(s: seq<byte>): int
    requires IntegerNumeral(s)
  {
    if s[0] == 45 then 0 - DigitsValue(s[1..]) else DigitsValue(s)
  }

  /** The end of the digits from position `i` on. */
  function DigitRun(s: seq<byte>, i: nat): (r: nat)
    requires i <= |s|
    ensures i <= r <= |s|
    decreases |s| - i
  {
    if i < |s| && 48 <= s[i] <= 57 then DigitRun(s, i + 1) else i
  }

  predicate ExponentPart(e: seq<byte>) {
    e != [] ==>
      (e[0] == 101 || e[0] == 69) &&
      var d := if |e| > 1 && (e[1] == 43 || e[1] == 45) then e[2..] else e[1..];
      d != [] && AllDigits(d)
  }

  predicate DecimalNumeral(d: seq<byte>) {
    var a := DigitRun(d, 0);
    var b := if a < |d| && d[a] == 46 then DigitRun(d, a + 1) else a;
    (a > 0 || b > a + 1) && ExponentPart(d[b..])
  }

  predicate HexNumeral(d: seq<byte>) {
    |d| > 2 && d[0] == 48 && (d[1] == 120 || d[1] == 88) && forall i :: 2 <= i < |d| ==> HexValue(d[i]).Some?
  }

  /** What `tonumber` accepts: the numerals of section 2.1 of the Lua 5.1 manual, with a sign. */
  predicate Numeral(s: seq<byte>) {
    var d := if s != [] && s[0] == 45 then s[1..] else s;
    DecimalNumeral(d) || HexNumeral(d)
  }

  function ParseNumber(s: seq<byte>, i: nat): (r: Parsed<Value>)
    requires i < |s| && !IsDelim(s[i])
    ensures r.Done? ==> i < r.next <= |s|
  {
    var x := FindDelim(s, i);
    var t := s[i..x];
    if IntegerNumeral(t) then Done(Num(IntegerValue(t)), x)
    else if Numeral(t) then OtherNumeral(i)
    else Fail(i, BadNumber)
  }

  lemma {:induction false} AllDigitsRun(d: seq<byte>, i: nat)
    requires i <= |d| && AllDigits(d)
    ensures DigitRun(d, i) == |d|
    decreases |d| - i
  {
    if i < |d| {
      AllDigitsRun(d, i + 1);
    }
  }

  /** A number is refused exactly when its token is no numeral. */
  lemma NumberRefused(s: seq<byte>, i: nat)
    requires i < |s| && !IsDelim(s[i])
    ensures ParseNumber(s, i).Fail? <==> !Numeral(s[i..FindDelim(s, i)])
    ensures ParseNumber(s, i).Done? <==> IntegerNumeral(s[i..FindDelim(s, i)])
  {
    var t := s[i..FindDelim(s, i)];
    if IntegerNumeral(t) {
      AllDigitsRun(if t[0] == 45 then t[1..] else t, 0);
    }
  }

  function ParseLiteral(s: seq<byte>, i: nat): (r: Parsed<Value>)
    requires i < |s| && !IsDelim(s[i])
    ensures r.Done? ==> i < r.next <= |s|
  {
    var x := FindDelim(s, i);
    var word := s[i..x];
    if word == TRUE_WORD then Done(Bool(true), x)
    else if word == FALSE_WORD then Done(Bool(false), x)
    else if word == NULL_WORD then Done(Nil, x)
    else Fail(i, BadLiteral)
  }

  // ---------------------------------------------------------------- the parser

  /** `res[key] = val`: storing nil removes the entry. */
  function Assign(res: map<Key, Value>, k: Key, v: Value): map<Key, Value> {
    if v.Nil? then res - {k} else res[k := v]
  }

  function Parse(s: seq<byte>, i: nat): (r: Parsed<Value>)
    requires i <= |s|
    ensures r.Done? ==> i < r.next <= |s|
    decreases |s| - i, 0
  {
    match CharAt(s, i)
    case None => Fail(i, UnexpectedCharacter)
    case Some(c) =>
      if c == QUOTE then
        match ParseString(s, i) {
          case Done(t, next) => Done(Str(t), next)
          case Fail(at, why) => Fail(at, why)
          case OtherNumeral(at) => OtherNumeral(at)
        }
      else if 48 <= c <= 57 || c == 45 then ParseNumber(s, i)
      else if c == 116 || c == 102 || c == 110 then ParseLiteral(s, i)
      else if c == OPEN_BRACKET then ArrayRest(s, i + 1, 1, map[])
      else if c == OPEN_BRACE then ObjectRest(s, i + 1, map[])
      else Fail(i, UnexpectedCharacter)
  }

  /** The array loop from its head: `n` is the index of the next element. */
  function ArrayRest(s: seq<byte>, i: nat, n: nat, res: map<Key, Value>): (r: Parsed<Value>)
    requires i <= |s|
    ensures r.Done? ==> i < r.next <= |s|
    decreases |s| - i, 1
  {
    var i1 := SkipSpaces(s, i);
    if CharAt(s, i1) == Some(CLOSE_BRACKET) then Done(Table(res), i1 + 1)
    else match Parse(s, i1)
      case Fail(at, why) => Fail(at, why)
      case OtherNumeral(at) => OtherNumeral(at)
      case Done(x, i2) =>
        var res' := Assign(res, At(n), x);
        var i3 := SkipSpaces(s, i2);
        var chr := CharAt(s, i3);
        if chr == Some(CLOSE_BRACKET) then Done(Table(res'), i3 + 1)
        else if chr != Some(COMMA) then Fail(i3 + 1, ExpectedArrayEnd)
        else ArrayRest(s, i3 + 1, n + 1, res')
  }

  /** The object loop from its head. */
  function ObjectRest(s: seq<byte>, i: nat, res: map<Key, Value>): (r: Parsed<Value>)
    requires i <= |s|
    ensures r.Done? ==> i < r.next <= |s|
    decreases |s| - i, 1
  {
    var i1 := SkipSpaces(s, i);
    if CharAt(s, i1) == Some(CLOSE_BRACE) then Done(Table(res), i1 + 1)
    else if CharAt(s, i1) != Some(QUOTE) then Fail(i1, ExpectedKey)
    else match ParseString(s, i1)
      case Fail(at, why) => Fail(at, why)
      case OtherNumeral(at) => OtherNumeral(at)
      case Done(key, i2) =>
        var i3 := SkipSpaces(s, i2);
        if CharAt(s, i3) != Some(COLON) then Fail(i3, ExpectedColon)
        else
          var i4 := SkipSpaces(s, i3 + 1);
          match Parse(s, i4)
          case Fail(at, why) => Fail(at, why)
          case OtherNumeral(at) => OtherNumeral(at)
          case Done(val, i5) =>
            var res' := Assign(res, Named(key), val);
            var i6 := SkipSpaces(s, i5);
            var chr := CharAt(s, i6);
            if chr == Some(CLOSE_BRACE) then Done(Table(res'), i6 + 1)
            else if chr != Some(COMMA) then Fail(i6 + 1, ExpectedObjectEnd)
            else ObjectRest(s, i6 + 1, res')
  }

  function Decode(s: seq<byte>): Parsed<Value> {
    match Parse(s, SkipSpaces(s, 0))
    case Done(v, i) =>
      var i' := SkipSpaces(s, i);
      if i' < |s| then Fail(i', TrailingGarbage) else Done(v, i')
    case e => e
  }

  // ---------------------------------------------------------------- the parser's own loops

  method ParseValue(s: seq<byte>, i: nat) returns (r: Parsed<Value>)
    requires i <= |s|
    ensures r == Parse(s, i)
    decreases |s| - i, 0
  {
    hide StringRest;
    var c := CharAt(s, i);
    if c.None? {
      return Fail(i, UnexpectedCharacter);
    }
    match c.value {
      case 34 =>
        var t := ParseStringLoop(s, i);
        match t {
          case Done(v, next) => r := Done(Str(v), next);
          case Fail(at, why) => r := Fail(at, why);
          case OtherNumeral(at) => r := OtherNumeral(at);
        }
      case 91 => r := ParseArray(s, i);
      case 123 => r := ParseObject(s, i);
      case x =>
        if 48 <= x <= 57 || x == 45 {
          r := ParseNumberToken(s, i);
        } else if x == 116 || x == 102 || x == 110 {
          r := ParseLiteralToken(s, i);
        } else {
          r := Fail(i, UnexpectedCharacter);
        }
    }
  }

  method ParseNumberToken(s: seq<byte>, i: nat) returns (r: Parsed<Value>)
    requires i < |s| && !IsDelim(s[i])
    ensures r == ParseNumber(s, i)
  {
    var x := NextChar(s, i, false, false);
    var t := s[i..x];
    if IntegerNumeral(t) {
      return Done(Num(IntegerValue(t)), x);
    }
    return if Numeral(t) then OtherNumeral(i) else Fail(i, BadNumber);
  }

  method ParseLiteralToken(s: seq<byte>, i: nat) returns (r: Parsed<Value>)
    requires i < |s| && !IsDelim(s[i])
    ensures r == ParseLiteral(s, i)
  {
    var x := NextChar(s, i, false, false);
    var word := s[i..x];
    if word == TRUE_WORD {
      return Done(Bool(true), x);
    } else if word == FALSE_WORD {
      return Done(Bool(false), x);
    } else if word == NULL_WORD {
      return Done(Nil, x);
    }
    return Fail(i, BadLiteral);
  }

  method ParseArray(s: seq<byte>, start: nat) returns (r: Parsed<Value>)
    requires start < |s|
    ensures r == ArrayRest(s, start + 1, 1, map[])
    decreases |s| - start - 1, 2
  {
    hide Parse, SkipSpaces;
    var res: map<Key, Value> := map[];
    var n, i := 1, start + 1;
    while true
      invariant start < i <= |s|
      invariant ArrayRest(s, start + 1, 1, map[]) == ArrayRest(s, i, n, res)
      decreases |s| - i
    {
      i := NextChar(s, i, true, true);
      if CharAt(s, i) == Some(CLOSE_BRACKET) {
        i := i + 1;
        return Done(Table(res), i);
      }
      var x := ParseValue(s, i);
      match x {
        case Fail(at, why) => return Fail(at, why);
        case OtherNumeral(at) => return OtherNumeral(at);
        case Done(v, next) =>
          i := next;
          res := Assign(res, At(n), v);
          n := n + 1;
      }
      i := NextChar(s, i, true, true);
      var chr := CharAt(s, i);
      i := i + 1;
      if chr == Some(CLOSE_BRACKET) {
        return Done(Table(res), i);
      }
      if chr != Some(COMMA) {
        return Fail(i, ExpectedArrayEnd);
      }
    }
  }

  method ParseObject(s: seq<byte>, start: nat) returns (r: Parsed<Value>)
    requires start < |s|
    ensures r == ObjectRest(s, start + 1, map[])
    decreases |s| - start - 1, 2
  {
    hide Parse, SkipSpaces, ParseString;
    var res: map<Key, Value> := map[];
    var i := start + 1;
    while true
      invariant start < i <= |s|
      invariant ObjectRest(s, start + 1, map[]) == ObjectRest(s, i, res)
      decreases |s| - i
    {
      i := NextChar(s, i, true, true);
      if CharAt(s, i) == Some(CLOSE_BRACE) {
        i := i + 1;
        return Done(Table(res), i);
      }
      if CharAt(s, i) != Some(QUOTE) {
        return Fail(i, ExpectedKey);
      }
      var key := ParseStringLoop(s, i);
      if !key.Done? {
        return if key.Fail? then Fail(key.at, key.why) else OtherNumeral(key.at);
      }
      i := NextChar(s, key.next, true, true);
      if CharAt(s, i) != Some(COLON) {
        return Fail(i, ExpectedColon);
      }
      i := NextChar(s, i + 1, true, true);
      var val := ParseValue(s, i);
      if !val.Done? {
        return if val.Fail? then Fail(val.at, val.why) else OtherNumeral(val.at);
      }
      res := Assign(res, Named(key.value), val.value);
      i := NextChar(s, val.next, true, true);
      var chr := CharAt(s, i);
      i := i + 1;
      if chr == Some(CLOSE_BRACE) {
        return Done(Table(res), i);
      }
      if chr != Some(COMMA) {
        return Fail(i, ExpectedObjectEnd);
      }
    }
  }

  method DecodeText(s: seq<byte>) returns (r: Parsed<Value>)
    ensures r == Decode(s)
  {
    hide Parse, SkipSpaces;
    var idx := NextChar(s, 0, true, true);
    r := ParseValue(s, idx);
    if r.Done? {
      idx := NextChar(s, r.next, true, true);
      if idx < |s| {
        return Fail(idx, TrailingGarbage);
      }
      return Done(r.value, idx);
    }
  }

  // ---------------------------------------------------------------- unicode escapes

  /** A byte that continues a character. */
  predicate Continuation(b: byte) {
    0x80 <= b <= 0xbf
  }

  /** The well-formed characters of RFC 3629, section 4, and their code points. */
  function DecodeUtf8(b: seq<byte>): Option<nat> {
    if |b| == 1 && b[0] <= 0x7f then Some(b[0])
    else if |b| == 2 && 0xc2 <= b[0] <= 0xdf && Continuation(b[1]) then
      Some((b[0] - 0xc0) as int * 64 + (b[1] - 0x80) as int)
    else if |b| == 3 && 0xe0 <= b[0] <= 0xef && Continuation(b[1]) && Continuation(b[2])
         && (b[0] == 0xe0 ==> b[1] >= 0xa0) && (b[0] == 0xed ==> b[1] <= 0x9f) then
      Some((b[0] - 0xe0) as int * 4096 + (b[1] - 0x80) as int * 64 + (b[2] - 0x80) as int)
    else if |b| == 4 && 0xf0 <= b[0] <= 0xf4 && Continuation(b[1]) && Continuation(b[2]) && Continuation(b[3])
         && (b[0] == 0xf0 ==> b[1] >= 0x90) && (b[0] == 0xf4 ==> b[1] <= 0x8f) then
      Some((b[0] - 0xf0) as int * 262144 + (b[1] - 0x80) as int * 4096 + (b[2] - 0x80) as int * 64 + (b[3] - 0x80) as int)
    else None
  }

  predicate IsSurrogate(n: nat) {
    0xd800 <= n <= 0xdfff
  }

  lemma SixBitGroups(n: nat)
    ensures n == n / 64 * 64 + n % 64
    ensures n == n / 4096 * 4096 + n % 4096 / 64 * 64 + n % 64
    ensures n == n / 262144 * 262144 + n % 262144 / 4096 * 4096 + n % 4096 / 64 * 64 + n % 64
  {
    assert n % 4096 == 64 * (n % 4096 / 64) + n % 4096 % 64;
    assert n % 4096 % 64 == n % 64;
    assert n % 262144 == 4096 * (n % 262144 / 4096) + n % 262144 % 4096;
    assert n % 262144 % 4096 == n % 4096;
  }

  /** The bytes made for a code point are well-formed UTF-8 for it exactly when it is not a
      surrogate; above the last code point there is an error. */
  lemma Utf8Correct(n: nat)
    ensures CodepointToUtf8(n).Some? <==> n <= 0x10ffff
    ensures n <= 0x10ffff ==> DecodeUtf8(CodepointToUtf8(n).value) == if IsSurrogate(n) then None else Some(n)
  {
    SixBitGroups(n);
    if n <= 0x7f {
    } else if n <= 0x7ff {
      assert 2 <= n / 64 <= 31;
    } else if n <= 0xffff {
      ThreeBytes(n);
    } else if n <= 0x10ffff {
      FourBytes(n);
    }
  }

  /** The bytes written out: how many, their leading bits, and six bits in each further byte. */
  lemma Utf8Bytes(n: nat)
    requires n <= 0x10ffff
    ensures
      var u := CodepointToUtf8(n).value;
      && |u| == (if n < 0x80 then 1 else if n < 0x800 then 2 else if n < 0x10000 then 3 else 4)
      && (forall i :: 1 <= i < |u| ==> 0x80 <= u[i] < 0xc0)
      && n == (if |u| == 1 then u[0] as int
               else if |u| == 2 then (u[0] as int - 0xc0) * 0x40 + (u[1] as int - 0x80)
               else if |u| == 3 then (u[0] as int - 0xe0) * 0x1000 + (u[1] as int - 0x80) * 0x40 + (u[2] as int - 0x80)
               else (u[0] as int - 0xf0) * 0x40000 + (u[1] as int - 0x80) * 0x1000 + (u[2] as int - 0x80) * 0x40 + (u[3] as int - 0x80))
  {
    SixBitGroups(n);
    if 0x7ff < n <= 0xffff {
      ThreeBytes(n);
    } else if 0xffff < n {
      FourBytes(n);
    }
  }

  lemma ThreeBytes(n: nat)
    requires 0x7ff < n <= 0xffff
    ensures 0 <= n / 4096 <= 15 && 0 <= n % 4096 / 64 <= 63 && 0 <= n % 64 <= 63
    ensures n / 4096 == 0 ==> n % 4096 / 64 >= 32
    ensures IsSurrogate(n) <==> n / 4096 == 13 && n % 4096 / 64 >= 32
  {
  }

  lemma FourBytes(n: nat)
    requires 0xffff < n <= 0x10ffff
    ensures 0 <= n / 262144 <= 4 && 0 <= n % 262144 / 4096 <= 63 && 0 <= n % 4096 / 64 <= 63 && 0 <= n % 64 <= 63
    ensures n / 262144 == 0 ==> n % 262144 / 4096 >= 16
    ensures n / 262144 == 4 ==> n % 262144 / 4096 <= 15
  {
  }

  predicate IsHigh(n: nat) {
    0xd800 <= n <= 0xdbff
  }

  predicate IsLow(n: nat) {
    0xdc00 <= n <= 0xdfff
  }

  /** What two UTF-16 code units mean together. */
  function CombineSurrogates(hi: nat, lo: nat): nat
    requires IsHigh(hi) && IsLow(lo)
  {
    0x10000 + (hi - 0xd800) * 0x400 + (lo - 0xdc00)
  }

  /** The text that escaped UTF-16 code units denote by section 7 of RFC 8259: none if a
      surrogate has no partner. */
  function TextOf(units: seq<nat>): Option<seq<nat>> {
    if units == [] then Some([])
    else if IsHigh(units[0]) then
      if |units| > 1 && IsLow(units[1]) then WithFirst(CombineSurrogates(units[0], units[1]), TextOf(units[2..]))
      else None
    else if IsLow(units[0]) then None
    else WithFirst(units[0], TextOf(units[1..]))
  }

  function WithFirst(c: nat, rest: Option<seq<nat>>): Option<seq<nat>> {
    if rest.Some? then Some([c] + rest.value) else None
  }

  /** A high surrogate with no low one behind it, or a low one with no high one before it. */
  predicate Unpaired(units: seq<nat>, k: nat)
    requires k < |units|
  {
    || (IsHigh(units[k]) && !(k + 1 < |units| && IsLow(units[k + 1])))
    || (IsLow(units[k]) && !(k > 0 && IsHigh(units[k - 1])))
  }

  lemma {:induction false} TextIffPaired(units: seq<nat>)
    ensures TextOf(units).Some? <==> forall k :: 0 <= k < |units| ==> !Unpaired(units, k)
  {
    if units == [] {
    } else if Unpaired(units, 0) {
    } else {
      hide TextOf, Unpaired;
      var d := if IsHigh(units[0]) then 2 else 1;
      PairedFront(units);
      TextIffPaired(units[d..]);
      forall k | d <= k < |units|
        ensures Unpaired(units, k) <==> Unpaired(units[d..], k - d)
      {
        PairedShift(units, d, k);
      }
      if TextOf(units[d..]).None? {
        var k :| 0 <= k < |units[d..]| && Unpaired(units[d..], k);
        assert Unpaired(units, k + d);
      }
    }
  }

  /** A text goes on behind its first character. */
  lemma PairedFront(units: seq<nat>)
    requires units != [] && !Unpaired(units, 0)
    ensures
      var d := if IsHigh(units[0]) then 2 else 1;
      && d <= |units| && (TextOf(units).Some? <==> TextOf(units[d..]).Some?)
      && (forall k: nat :: k < d ==> !Unpaired(units, k))
  {
    hide CombineSurrogates;
    var d := if IsHigh(units[0]) then 2 else 1;
    assert d <= |units|;
    assert TextOf(units) == WithFirst(if d == 2 then CombineSurrogates(units[0], units[1]) else units[0], TextOf(units[d..]));
  }

  lemma PairedShift(units: seq<nat>, d: nat, k: nat)
    requires units != [] && !Unpaired(units, 0) && d == (if IsHigh(units[0]) then 2 else 1) <= k < |units|
    ensures Unpaired(units, k) <==> Unpaired(units[d..], k - d)
  {
    assert units[d..][k - d] == units[k];
  }

  /** The code units of an escape: two where the parser sees a pair. */
  function Units(s: seq<byte>, i: nat): seq<nat>
    requires Hex4At(s, i)
  {
    if PairAt(s, i) then [Hex4(s, i), Hex4(s, i + 6)] else [Hex4(s, i)]
  }

  /** An escape becomes the UTF-8 of the text it denotes if and only if it denotes any, that is,
      if no surrogate in it is unpaired; a high surrogate is combined with whatever escape
      follows it, and the parser gives an error exactly when this leads past the last code
      point. */
  lemma UnicodeEscapes(s: seq<byte>, i: nat)
    requires Hex4At(s, i)
    ensures
      var u, text := CodepointToUtf8(EscapedCodepoint(s, i)), TextOf(Units(s, i));
      && (u.Some? && DecodeUtf8(u.value).Some? && text == Some([DecodeUtf8(u.value).value])
          <==> forall k :: 0 <= k < |Units(s, i)| ==> !Unpaired(Units(s, i), k))
      && (u.None? <==> PairAt(s, i) && (0xdbff - Hex4(s, i)) * 0x400 < Hex4(s, i + 6) - 0xdfff)
  {
    hide CodepointToUtf8, DecodeUtf8, Hex4, Unpaired;
    var units := Units(s, i);
    TextIffPaired(units);
    if PairAt(s, i) {
      PairRange(s, i);
      assert units[2..] == [];
    } else {
      assert units[1..] == [];
    }
    var n := EscapedCodepoint(s, i);
    assert [n] + [] == [n];
    Utf8Correct(n);
  }

  /** A run of escapes in a string literal, one after the other. */
  predicate EscapesAt(s: seq<byte>, j: nat, units: seq<nat>)
    decreases |units|
  {
    units != [] ==>
      && j + 2 <= |s| && s[j] == BACKSLASH && s[j + 1] == LOWER_U
      && Hex4At(s, j + 2) && Hex4(s, j + 2) == units[0] && EscapesAt(s, j + 6, units[1..])
  }

  /** The characters of a text, one after the other. */
  function Utf8Of(text: seq<nat>): seq<byte> {
    if text == [] then []
    else
      var u := CodepointToUtf8(text[0]);
      (if u.Some? then u.value else []) + Utf8Of(text[1..])
  }

  /** A run of escapes that denotes a text is read as the UTF-8 of that text, whatever stands
      before and after it. */
  lemma {:induction false} EscapedText(s: seq<byte>, start: nat, j: nat, units: seq<nat>, res: seq<byte>)
    requires j <= |s| && EscapesAt(s, j, units) && TextOf(units).Some?
    ensures j + 6 * |units| <= |s|
    ensures StringRest(s, start, j, res) == StringRest(s, start, j + 6 * |units|, res + Utf8Of(TextOf(units).value))
    decreases |units|
  {
    hide CodepointToUtf8, TextOf, EscapesAt, StringRest;
    TextOfNone();
    if units == [] {
      assert res + [] == res;
    } else {
      var text, d := TextOf(units).value, if IsHigh(units[0]) then 2 else 1;
      EscapeRead(s, start, j, units, res);
      EscapedText(s, start, j + 6 * d, units[d..], res + CodepointToUtf8(text[0]).value);
      assert (res + CodepointToUtf8(text[0]).value) + Utf8Of(text[1..]) == res + Utf8Of(text);
    }
  }

  lemma TextOfNone()
    ensures TextOf([]) == Some([])
  {
  }

  /** The parser takes in the first character of the run, one escape or two. */
  lemma EscapeRead(s: seq<byte>, start: nat, j: nat, units: seq<nat>, res: seq<byte>)
    requires j <= |s| && units != [] && EscapesAt(s, j, units) && TextOf(units).Some?
    ensures
      var text, d := TextOf(units).value, if IsHigh(units[0]) then 2 else 1;
      && |text| > 0 && d <= |units| && TextOf(units[d..]) == Some(text[1..])
      && EscapesAt(s, j + 6 * d, units[d..]) && j + 6 * d <= |s| && CodepointToUtf8(text[0]).Some?
      && StringRest(s, start, j, res) == StringRest(s, start, j + 6 * d, res + CodepointToUtf8(text[0]).value)
  {
    hide CodepointToUtf8, Hex4, HexValue;
    HighDigits(s, j + 2);
    if IsHigh(units[0]) {
      assert units[1..][0] == units[1] && units[1..][1..] == units[2..];
      assert PairAt(s, j + 2);
    }
    Utf8Correct(EscapedCodepoint(s, j + 2));
  }

  /** The digits of a high surrogate. */
  lemma HighDigits(s: seq<byte>, i: nat)
    requires Hex4At(s, i)
    ensures IsHigh(Hex4(s, i)) <==>
              && (s[i] == 100 || s[i] == 68)
              && (s[i + 1] == 56 || s[i + 1] == 57 || s[i + 1] == 97 || s[i + 1] == 65 || s[i + 1] == 98 || s[i + 1] == 66)
  {
    HighValue(HexValue(s[i]).value, HexValue(s[i + 1]).value, HexValue(s[i + 2]).value * 0x10 + HexValue(s[i + 3]).value);
  }

  lemma HighValue(a: nat, b: nat, rest: nat)
    requires b < 16 && rest < 0x100
    ensures IsHigh(a * 0x1000 + b * 0x100 + rest) <==> a == 13 && 8 <= b <= 11
  {
  }

  /** The sequence D800 0041 is read as one character, U+2441. */
  lemma UnpairedIsCombined()
    ensures
      var s: seq<byte> := [100, 56, 48, 48, 92, 117, 48, 48, 52, 49];
      PairAt(s, 0) && Hex4(s, 6) == 0x41 && EscapedCodepoint(s, 0) == 0x2441
  {
  }

  // ---------------------------------------------------------------- the texts the parser takes

  /** Any run of tabs, line feeds, carriage returns and blanks: the white space of section 2 of RFC 8259. */
  predicate Spaces(w: seq<byte>) {
    forall i :: 0 <= i < |w| ==> w[i] == 9 || w[i] == 10 || w[i] == 13 || w[i] == 32
  }

  /** What a string literal is made of: a character that stands for itself, a backslash and a
      letter, or a backslash, a `u` and four hexadecimal digits. */
  datatype Piece = Raw(c: byte) | Short(letter: byte) | Unicode(hex: seq<byte>)

  /** `next` is missing where the bracket follows; `NoItem` is the bracket itself, behind the
      opening one or behind a comma. */
  datatype Items = NoItem(end: seq<byte>) | Item(before: seq<byte>, t: Text, after: seq<byte>, next: Option<Items>)

  datatype Members =
    | NoMember(end: seq<byte>)
    | Member(before: seq<byte>, key: seq<Piece>, behind: seq<byte>, gap: seq<byte>, t: Text, after: seq<byte>, next: Option<Members>)

  datatype Text =
    | TNull | TBool(b: bool) | TNum(token: seq<byte>) | TStr(pieces: seq<Piece>)
    | TArr(items: Items) | TObj(members: Members)

  predicate PieceOk(x: Piece) {
    match x
    case Raw(c) => c >= 32 && c != 34 && c != 92
    case Short(l) => l == 34 || l == 47 || l == 92 || l == 98 || l == 102 || l == 110 || l == 114 || l == 116
    case Unicode(h) => |h| == 4 && Hex4At(h, 0)
  }

  function WritePiece(x: Piece): seq<byte> {
    match x
    case Raw(c) => [c]
    case Short(l) => [92, l]
    case Unicode(h) => [92, 117] + h
  }

  function WritePieces(ps: seq<Piece>): seq<byte> {
    if ps == [] then [] else WritePiece(ps[0]) + WritePieces(ps[1..])
  }

  function ShortMeans(l: byte): byte {
    if l == 98 then 8 else if l == 102 then 12 else if l == 110 then 10
    else if l == 114 then 13 else if l == 116 then 9 else l
  }

  predicate PiecesOk(ps: seq<Piece>) {
    forall i :: 0 <= i < |ps| ==> PieceOk(ps[i])
  }

  function Front(a: Option<seq<byte>>, b: Option<seq<byte>>): Option<seq<byte>> {
    if a.Some? && b.Some? then Some(a.value + b.value) else None
  }

  /** How many pieces make the next character: an escape of a high surrogate is taken together
      with an escape right behind it. */
  function Group(ps: seq<Piece>): (d: nat)
    requires ps != [] && PiecesOk(ps)
    ensures 0 < d <= |ps|
  {
    if ps[0].Unicode? && IsHigh(Hex4(ps[0].hex, 0)) && |ps| > 1 && ps[1].Unicode? then 2 else 1
  }

  /** The bytes they stand for; none if they lead past the last code point. */
  function GroupText(ps: seq<Piece>): Option<seq<byte>>
    requires ps != [] && PiecesOk(ps)
  {
    match ps[0]
    case Raw(c) => Some([c])
    case Short(l) => Some([ShortMeans(l)])
    case Unicode(h) =>
      if Group(ps) == 2 then CodepointToUtf8(0x10000 + (Hex4(h, 0) - 0xd800) * 0x400 + Hex4(ps[1].hex, 0) - 0xdc00)
      else CodepointToUtf8(Hex4(h, 0))
  }

  function StringText(ps: seq<Piece>): Option<seq<byte>>
    requires PiecesOk(ps)
    decreases |ps|
  {
    if ps == [] then Some([]) else Front(GroupText(ps), StringText(ps[Group(ps)..]))
  }

  predicate StringOk(ps: seq<Piece>) {
    PiecesOk(ps) && StringText(ps).Some?
  }

  predicate TextOk(t: Text) {
    match t
    case TNum(k) => IntegerNumeral(k)
    case TStr(ps) => StringOk(ps)
    case TArr(x) => ItemsOk(x)
    case TObj(x) => MembersOk(x)
    case _ => true
  }

  predicate ItemsOk(x: Items) {
    match x
    case NoItem(w) => Spaces(w)
    case Item(w, t, w', next) => Spaces(w) && TextOk(t) && Spaces(w') && (next.Some? ==> ItemsOk(next.value))
  }

  predicate MembersOk(x: Members) {
    match x
    case NoMember(w) => Spaces(w)
    case Member(w, key, w1, w2, t, w', next) =>
      && Spaces(w) && StringOk(key) && Spaces(w1) && Spaces(w2) && TextOk(t) && Spaces(w')
      && (next.Some? ==> MembersOk(next.value))
  }

  /** The rest of a string literal. */
  function Closing(ps: seq<Piece>): seq<byte> {
    WritePieces(ps) + [34]
  }

  function WriteString(ps: seq<Piece>): seq<byte> {
    [34] + Closing(ps)
  }

  function Write(t: Text): seq<byte> {
    match t
    case TNull => [110, 117, 108, 108]
    case TBool(b) => if b then [116, 114, 117, 101] else [102, 97, 108, 115, 101]
    case TNum(k) => k
    case TStr(ps) => WriteString(ps)
    case TArr(x) => [91] + WriteItems(x)
    case TObj(x) => [123] + WriteMembers(x)
  }

  function WriteItems(x: Items): seq<byte> {
    match x
    case NoItem(w) => w + [93]
    case Item(w, t, w', next) => w + (Write(t) + (w' + (if next.None? then [93] else [44] + WriteItems(next.value))))
  }

  function WriteMembers(x: Members): seq<byte> {
    match x
    case NoMember(w) => w + [125]
    case Member(w, key, w1, w2, t, w', next) =>
      w + (WriteString(key) + (w1 + ([58] + (w2 + (Write(t) + (w' + (if next.None? then [125] else [44] + WriteMembers(next.value))))))))
  }

  /** The Lua value a text stands for. */
  function Denoted(t: Text): Value
    requires TextOk(t)
  {
    match t
    case TNull => Nil
    case TBool(b) => Bool(b)
    case TNum(k) => Num(IntegerValue(k))
    case TStr(ps) => Str(StringText(ps).value)
    case TArr(x) => Table(ItemsInto(x, 1, map[]))
    case TObj(x) => Table(MembersInto(x, map[]))
  }

  function ItemsInto(x: Items, n: nat, res: map<Key, Value>): map<Key, Value>
    requires ItemsOk(x)
  {
    match x
    case NoItem(_) => res
    case Item(_, t, _, next) =>
      var res' := Assign(res, At(n), Denoted(t));
      if next.None? then res' else ItemsInto(next.value, n + 1, res')
  }

  function MembersInto(x: Members, res: map<Key, Value>): map<Key, Value>
    requires MembersOk(x)
  {
    match x
    case NoMember(_) => res
    case Member(_, key, _, _, t, _, next) =>
      var res' := Assign(res, Named(StringText(key).value), Denoted(t));
      if next.None? then res' else MembersInto(next.value, res')
  }

  // ---------------------------------------------------------------- every text is read

  /** `b` stands at position `i`. */
  predicate Holds(s: seq<byte>, i: nat, b: seq<byte>) {
    i + |b| <= |s| && s[i..i + |b|] == b
  }

  lemma HoldsConcat(s: seq<byte>, i: nat, a: seq<byte>, b: seq<byte>)
    ensures Holds(s, i, a + b) <==> Holds(s, i, a) && Holds(s, i + |a|, b)
  {
    if i + |a| + |b| <= |s| {
      var j, k := i + |a|, i + |a| + |b|;
      assert s[i..k] == s[i..j] + s[j..k];
      if s[i..k] == a + b {
        assert s[i..j] == s[i..k][..|a|] && s[j..k] == s[i..k][|a|..];
      }
    }
  }

  lemma HoldsOne(s: seq<byte>, i: nat, c: byte)
    ensures Holds(s, i, [c]) <==> i < |s| && s[i] == c
  {
  }

  lemma HoldsFirst(s: seq<byte>, i: nat, b: seq<byte>)
    requires Holds(s, i, b) && b != []
    ensures i < |s| && s[i] == b[0]
  {
    assert s[i..i + |b|][0] == s[i];
  }

  /** Spaces up to something else are skipped; what is skipped is spaces. */
  lemma {:induction false} SpacesSkipped(s: seq<byte>, i: nat, w: seq<byte>)
    requires Spaces(w) && Holds(s, i, w)
    requires var j := i + |w|; j < |s| ==> s[j] != 9 && s[j] != 10 && s[j] != 13 && s[j] != 32
    ensures SkipSpaces(s, i) == i + |w|
    decreases |w|
  {
    if w != [] {
      HoldsConcat(s, i, [w[0]], w[1..]);
      assert [w[0]] + w[1..] == w;
      HoldsFirst(s, i, w);
      SpacesSkipped(s, i + 1, w[1..]);
    }
  }

  lemma {:induction false} SkippedSpaces(s: seq<byte>, i: nat)
    requires i <= |s|
    ensures var j := SkipSpaces(s, i);
            Spaces(s[i..j]) && Holds(s, i, s[i..j]) && (j < |s| ==> s[j] != 9 && s[j] != 10 && s[j] != 13 && s[j] != 32)
    decreases |s| - i
  {
    if i < |s| && IsSpace(s[i]) {
      SkippedSpaces(s, i + 1);
      var j := SkipSpaces(s, i);
      assert s[i..j] == [s[i]] + s[i + 1..j];
    }
  }

  lemma UnicodeHolds(s: seq<byte>, i: nat, h: seq<byte>)
    requires |h| == 4
    ensures Holds(s, i, [92, 117] + h) <==> i + 6 <= |s| && s[i] == 92 && s[i + 1] == 117 && s[i + 2..i + 6] == h
  {
    HoldsConcat(s, i, [92, 117], h);
    HoldsConcat(s, i, [92], [117]);
    HoldsOne(s, i, 92);
    HoldsOne(s, i + 1, 117);
    assert [92 as byte] + [117] == [92, 117];
  }

  /** Four digits mean the same wherever they stand. */
  lemma HexAnywhere(s: seq<byte>, i: nat, h: seq<byte>)
    requires i + 4 <= |s| && s[i..i + 4] == h
    ensures Hex4At(s, i) <==> Hex4At(h, 0)
    ensures Hex4At(h, 0) ==> Hex4(s, i) == Hex4(h, 0)
  {
    assert h[0] == s[i] && h[1] == s[i + 1] && h[2] == s[i + 2] && h[3] == s[i + 3];
  }

  /** Where the parser sees a pair: behind a high surrogate stands another escape. */
  lemma PairIs(s: seq<byte>, i: nat)
    requires Hex4At(s, i)
    ensures PairAt(s, i) <==> IsHigh(Hex4(s, i)) && i + 10 <= |s| && s[i + 4] == 92 && s[i + 5] == 117 && Hex4At(s, i + 6)
  {
    hide Hex4;
    HighDigits(s, i);
  }

  lemma ClosingFront(s: seq<byte>, i: nat, ps: seq<Piece>)
    ensures ps != [] ==> (Holds(s, i, Closing(ps)) <==> Holds(s, i, WritePiece(ps[0])) && Holds(s, i + |WritePiece(ps[0])|, Closing(ps[1..])))
    ensures ps == [] ==> (Holds(s, i, Closing(ps)) <==> i < |s| && s[i] == 34)
    ensures ps != [] ==> |Closing(ps)| == |WritePiece(ps[0])| + |Closing(ps[1..])|
    ensures ps == [] ==> |Closing(ps)| == 1
  {
    hide WritePiece;
    if ps == [] {
      assert Closing(ps) == [34];
      HoldsOne(s, i, 34);
    } else {
      assert Closing(ps) == WritePiece(ps[0]) + Closing(ps[1..]);
      HoldsConcat(s, i, WritePiece(ps[0]), Closing(ps[1..]));
    }
  }

  lemma PieceHolds(s: seq<byte>, i: nat, x: Piece)
    requires PieceOk(x)
    ensures
      Holds(s, i, WritePiece(x)) <==>
      match x
      case Raw(c) => i < |s| && s[i] == c
      case Short(l) => i + 1 < |s| && s[i] == 92 && s[i + 1] == l
      case Unicode(h) => i + 6 <= |s| && s[i] == 92 && s[i + 1] == 117 && s[i + 2..i + 6] == h
  {
    hide Hex4At;
    match x
    case Raw(c) => HoldsOne(s, i, c);
    case Short(l) =>
      HoldsConcat(s, i, [92], [l]);
      assert [92 as byte] + [l] == [92, l];
      HoldsOne(s, i, 92);
      HoldsOne(s, i + 1, l);
    case Unicode(h) => UnicodeHolds(s, i, h);
  }

  /** An escape of a code unit looks like one, another piece or the closing quote does not. */
  lemma EscapeHere(s: seq<byte>, i: nat, ps: seq<Piece>)
    requires PiecesOk(ps) && Holds(s, i, Closing(ps))
    ensures ps != [] && ps[0].Unicode? <==> i + 6 <= |s| && s[i] == 92 && s[i + 1] == 117 && Hex4At(s, i + 2)
    ensures ps != [] && ps[0].Unicode? ==> Hex4(s, i + 2) == Hex4(ps[0].hex, 0)
  {
    hide Hex4, Closing;
    ClosingFront(s, i, ps);
    if ps != [] {
      PieceHolds(s, i, ps[0]);
      if ps[0].Unicode? {
        HexAnywhere(s, i + 2, ps[0].hex);
      }
    }
  }

  /** The next character of a string is read as what it stands for. */
  lemma GroupParsed(s: seq<byte>, start: nat, j: nat, ps: seq<Piece>, res: seq<byte>)
    requires PiecesOk(ps) && ps != [] && Holds(s, j, Closing(ps))
    ensures
      var rest := ps[Group(ps)..];
      var j' := j + |Closing(ps)| - |Closing(rest)|;
      && j <= j' <= |s| && Holds(s, j', Closing(rest))
      && StringRest(s, start, j, res) ==
         match GroupText(ps) case None => Fail(j, BadCodepoint) case Some(u) => StringRest(s, start, j', res + u)
  {
    hide Hex4, CodepointToUtf8, EscapedCodepoint, Closing;
    if ps[0].Unicode? {
      UnicodeParsed(s, start, j, ps, res);
    } else {
      ClosingFront(s, j, ps);
      PieceHolds(s, j, ps[0]);
    }
  }

  /** Where the escape of a code unit stands, and the second one of a pair. */
  lemma UnicodeStands(s: seq<byte>, j: nat, ps: seq<Piece>)
    requires PiecesOk(ps) && ps != [] && Holds(s, j, Closing(ps)) && ps[0].Unicode?
    ensures j + 6 <= |s| && s[j] == 92 && s[j + 1] == 117 && Hex4At(s, j + 2) && Hex4(s, j + 2) == Hex4(ps[0].hex, 0)
    ensures PairAt(s, j + 2) <==> Group(ps) == 2
    ensures Group(ps) == 2 ==> Hex4(s, j + 8) == Hex4(ps[1].hex, 0)
    ensures Holds(s, j + 6 * Group(ps), Closing(ps[Group(ps)..]))
    ensures |Closing(ps)| == |Closing(ps[Group(ps)..])| + 6 * Group(ps)
  {
    hide Hex4, Closing;
    ClosingFront(s, j, ps);
    PieceHolds(s, j, ps[0]);
    EscapeHere(s, j, ps);
    EscapeHere(s, j + 6, ps[1..]);
    PairIs(s, j + 2);
    if Group(ps) == 2 {
      assert ps[1..][0] == ps[1] && ps[1..][1..] == ps[2..];
      ClosingFront(s, j + 6, ps[1..]);
    }
  }

  lemma UnicodeParsed(s: seq<byte>, start: nat, j: nat, ps: seq<Piece>, res: seq<byte>)
    requires PiecesOk(ps) && ps != [] && Holds(s, j, Closing(ps)) && ps[0].Unicode?
    ensures
      var rest := ps[Group(ps)..];
      var j' := j + |Closing(ps)| - |Closing(rest)|;
      && j <= j' <= |s| && Holds(s, j', Closing(rest))
      && StringRest(s, start, j, res) ==
         match GroupText(ps) case None => Fail(j, BadCodepoint) case Some(u) => StringRest(s, start, j', res + u)
  {
    hide Hex4, CodepointToUtf8, Closing, PairAt, Hex4At, PieceOk;
    UnicodeStands(s, j, ps);
  }

  lemma StringEnd(s: seq<byte>, start: nat, j: nat, res: seq<byte>)
    requires j < |s| && s[j] == 34
    ensures StringRest(s, start, j, res) == Done(res, j + 1)
  {
  }

  lemma {:induction false} StringParsed(s: seq<byte>, start: nat, j: nat, ps: seq<Piece>, res: seq<byte>)
    requires StringOk(ps) && Holds(s, j, Closing(ps))
    ensures StringRest(s, start, j, res) == Done(res + StringText(ps).value, j + |Closing(ps)|)
    decreases |ps|
  {
    hide GroupText, Group, Closing, PieceOk, Holds, StringRest;
    ClosingFront(s, j, ps);
    if ps == [] {
      StringEnd(s, start, j, res);
      assert res + StringText(ps).value == res;
    } else {
      GroupParsed(s, start, j, ps, res);
      var rest, u := ps[Group(ps)..], GroupText(ps).value;
      StringParsed(s, start, j + |Closing(ps)| - |Closing(rest)|, rest, res + u);
      assert (res + u) + StringText(rest).value == res + StringText(ps).value;
    }
  }

  /** A run without delimiters, up to a delimiter or the end, is one token. */
  lemma {:induction false} TokenEnds(s: seq<byte>, i: nat, t: seq<byte>)
    requires Holds(s, i, t) && forall k :: 0 <= k < |t| ==> !IsDelim(t[k])
    requires i + |t| < |s| ==> IsDelim(s[i + |t|])
    ensures FindDelim(s, i) == i + |t|
    decreases |t|
  {
    if t != [] {
      HoldsFirst(s, i, t);
      HoldsConcat(s, i, [t[0]], t[1..]);
      assert [t[0]] + t[1..] == t;
      TokenEnds(s, i + 1, t[1..]);
    }
  }

  lemma NumeralToken(t: seq<byte>)
    requires IntegerNumeral(t)
    ensures t != [] && (48 <= t[0] <= 57 || t[0] == 45) && forall k :: 0 <= k < |t| ==> 48 <= t[k] <= 57 || t[k] == 45
  {
    if t[0] == 45 {
      assert forall k :: 1 <= k < |t| ==> t[k] == t[1..][k - 1];
    }
  }

  /** A number or a word up to a delimiter or the end. */
  lemma TokenParsed(s: seq<byte>, i: nat, t: Text)
    requires TextOk(t) && (t.TNum? || t.TBool? || t.TNull?) && Holds(s, i, Write(t))
    requires i + |Write(t)| < |s| ==> IsDelim(s[i + |Write(t)|])
    ensures Parse(s, i) == Done(Denoted(t), i + |Write(t)|)
  {
    hide IntegerNumeral, IntegerValue, FindDelim, ParseString, Numeral, ArrayRest, ObjectRest;
    if t.TNum? { NumeralToken(t.token); }
    HoldsFirst(s, i, Write(t));
    TokenEnds(s, i, Write(t));
  }

  /** How a text begins: not with a space or a closing bracket. */
  lemma TextStart(t: Text)
    requires TextOk(t)
    ensures
      && Write(t) != []
      && var c := Write(t)[0]; c != 9 && c != 10 && c != 13 && c != 32 && c != 93 && c != 125
  {
    if t.TNum? { NumeralToken(t.token); }
  }

  lemma TextHolds(s: seq<byte>, i: nat, t: Text)
    requires t.TStr? || t.TArr? || t.TObj?
    ensures Holds(s, i, Write(t)) <==>
              i < |s| && match t
                         case TStr(ps) => s[i] == 34 && Holds(s, i + 1, Closing(ps))
                         case TArr(x) => s[i] == 91 && Holds(s, i + 1, WriteItems(x))
                         case TObj(x) => s[i] == 123 && Holds(s, i + 1, WriteMembers(x))
  {
    hide Holds, WriteItems, WriteMembers, Closing;
    match t
    case TStr(ps) => HoldsConcat(s, i, [34], Closing(ps)); HoldsOne(s, i, 34);
    case TArr(x) => HoldsConcat(s, i, [91], WriteItems(x)); HoldsOne(s, i, 91);
    case TObj(x) => HoldsConcat(s, i, [123], WriteMembers(x)); HoldsOne(s, i, 123);
  }

  /** A text is read as the value it stands for, whatever stands around it: only a number or a
      word has to be followed by a delimiter. */
  lemma {:induction false} TextParsed(s: seq<byte>, i: nat, t: Text)
    requires TextOk(t) && Holds(s, i, Write(t))
    requires (t.TNum? || t.TBool? || t.TNull?) && i + |Write(t)| < |s| ==> IsDelim(s[i + |Write(t)|])
    ensures Parse(s, i) == Done(Denoted(t), i + |Write(t)|)
    decreases t
  {
    match t
    case TStr(ps) =>
      hide ParseString, Closing, StringText;
      TextHolds(s, i, t);
      KeyParsed(s, i, ps);
    case TArr(x) =>
      hide ArrayRest, WriteItems, ItemsInto;
      TextHolds(s, i, t);
      ItemsParsed(s, i + 1, x, 1, map[]);
    case TObj(x) =>
      hide ObjectRest, WriteMembers, MembersInto;
      TextHolds(s, i, t);
      MembersParsed(s, i + 1, x, map[]);
    case _ => TokenParsed(s, i, t);
  }

  /** Where the parts of an array's rest stand. */
  lemma ItemHolds(s: seq<byte>, i: nat, x: Items)
    ensures
      match x
      case NoItem(w) => Holds(s, i, WriteItems(x)) <==> Holds(s, i, w) && i + |w| < |s| && s[i + |w|] == 93
      case Item(w, t, w', next) =>
        var i1 := i + |w|;
        var i2 := i1 + |Write(t)|;
        var i3 := i2 + |w'|;
        && (Holds(s, i, WriteItems(x)) <==>
            && Holds(s, i, w) && Holds(s, i1, Write(t)) && Holds(s, i2, w') && i3 < |s|
            && if next.None? then s[i3] == 93 else s[i3] == 44 && Holds(s, i3 + 1, WriteItems(next.value)))
        && i + |WriteItems(x)| == i3 + 1 + if next.None? then 0 else |WriteItems(next.value)|
  {
    hide Holds, Write;
    match x
    case NoItem(w) =>
      HoldsConcat(s, i, w, [93]);
      HoldsOne(s, i + |w|, 93);
    case Item(w, t, w', next) =>
      var end := if next.None? then [93] else [44] + WriteItems(next.value);
      var i3 := i + |w| + |Write(t)| + |w'|;
      HoldsConcat(s, i, w, Write(t) + (w' + end));
      HoldsConcat(s, i + |w|, Write(t), w' + end);
      HoldsConcat(s, i + |w| + |Write(t)|, w', end);
      HoldsOne(s, i3, 93);
      HoldsOne(s, i3, 44);
      if next.Some? { HoldsConcat(s, i3, [44], WriteItems(next.value)); }
  }

  /** One round of the array loop. */
  lemma ArrayRound(s: seq<byte>, i: nat, i1: nat, i2: nat, i3: nat, n: nat, v: Value, res: map<Key, Value>)
    requires i <= i1 < i2 <= i3 < |s| && SkipSpaces(s, i) == i1 && s[i1] != 93
    requires Parse(s, i1) == Done(v, i2) && SkipSpaces(s, i2) == i3 && (s[i3] == 93 || s[i3] == 44)
    ensures
      var res' := Assign(res, At(n), v);
      ArrayRest(s, i, n, res) == if s[i3] == 93 then Done(Table(res'), i3 + 1) else ArrayRest(s, i3 + 1, n + 1, res')
  {
    hide SkipSpaces, Parse, Assign;
  }

  lemma ItemStands(s: seq<byte>, i: nat, x: Items)
    requires x.Item? && Holds(s, i, WriteItems(x))
    ensures
      var i1 := i + |x.before|;
      var i2 := i1 + |Write(x.t)|;
      var i3 := i2 + |x.after|;
      && i2 <= |s| && i3 < |s| && Holds(s, i, x.before) && Holds(s, i1, Write(x.t)) && Holds(s, i2, x.after)
      && if x.next.None? then s[i3] == 93 else s[i3] == 44 && Holds(s, i3 + 1, WriteItems(x.next.value))
  {
    hide Write, WriteItems;
    ItemHolds(s, i, x);
  }

  lemma NoItemParsed(s: seq<byte>, i: nat, w: seq<byte>, n: nat, res: map<Key, Value>)
    requires Spaces(w) && Holds(s, i, WriteItems(NoItem(w)))
    ensures ArrayRest(s, i, n, res) == Done(Table(res), i + |WriteItems(NoItem(w))|)
  {
    hide Parse, SkipSpaces, WriteItems, ArrayRest;
    ItemHolds(s, i, NoItem(w));
    SpacesSkipped(s, i, w);
    EmptyArray(s, i, i + |w|, n, res);
    WrittenEmpty(w);
  }

  lemma {:induction false} ItemsParsed(s: seq<byte>, i: nat, x: Items, n: nat, res: map<Key, Value>)
    requires ItemsOk(x) && Holds(s, i, WriteItems(x))
    ensures ArrayRest(s, i, n, res) == Done(Table(ItemsInto(x, n, res)), i + |WriteItems(x)|)
    decreases x
  {
    hide Parse, SkipSpaces, Write, WriteItems, TextOk, Denoted, Assign, ArrayRest, Holds, Spaces;
    match x
    case NoItem(w) => NoItemParsed(s, i, w, n, res);
    case Item(w, t, w', next) =>
      ItemHolds(s, i, x);
      ItemStands(s, i, x);
      var i1 := i + |w|;
      var i2 := i1 + |Write(t)|;
      var i3 := i2 + |w'|;
      TextStart(t);
      HoldsFirst(s, i1, Write(t));
      SpacesSkipped(s, i, w);
      SpacesSkipped(s, i2, w');
      DelimAfter(s, i2, w');
      TextParsed(s, i1, t);
      ArrayRound(s, i, i1, i2, i3, n, Denoted(t), res);
      if next.Some? {
        ItemsParsed(s, i3 + 1, next.value, n + 1, Assign(res, At(n), Denoted(t)));
      }
  }

  lemma WrittenEmpty(w: seq<byte>)
    ensures |WriteItems(NoItem(w))| == |w| + 1 == |WriteMembers(NoMember(w))|
  {
  }

  lemma EmptyArray(s: seq<byte>, i: nat, i1: nat, n: nat, res: map<Key, Value>)
    requires i <= i1 < |s| && SkipSpaces(s, i) == i1 && s[i1] == 93
    ensures ArrayRest(s, i, n, res) == Done(Table(res), i1 + 1)
  {
    hide SkipSpaces, Parse;
  }

  /** Spaces, a comma and the closing brackets end a token. */
  lemma DelimAfter(s: seq<byte>, i: nat, w: seq<byte>)
    requires Holds(s, i, w) && Spaces(w) && i + |w| < |s|
    requires s[i + |w|] == 93 || s[i + |w|] == 125 || s[i + |w|] == 44
    ensures i < |s| && IsDelim(s[i])
  {
    if w != [] { HoldsFirst(s, i, w); }
  }

  /** Where the parts of an object's rest stand. */
  lemma MemberHolds(s: seq<byte>, i: nat, x: Members)
    ensures
      match x
      case NoMember(w) => Holds(s, i, WriteMembers(x)) <==> Holds(s, i, w) && i + |w| < |s| && s[i + |w|] == 125
      case Member(w, key, w1, w2, t, w', next) =>
        var i1 := i + |w|;
        var i2 := i1 + 1 + |Closing(key)|;
        var i3 := i2 + |w1|;
        var i4 := i3 + 1 + |w2|;
        var i5 := i4 + |Write(t)|;
        var i6 := i5 + |w'|;
        && (Holds(s, i, WriteMembers(x)) <==>
            && Holds(s, i, w) && i1 < |s| && s[i1] == 34 && Holds(s, i1 + 1, Closing(key)) && Holds(s, i2, w1)
            && i3 < |s| && s[i3] == 58 && Holds(s, i3 + 1, w2) && Holds(s, i4, Write(t)) && Holds(s, i5, w') && i6 < |s|
            && if next.None? then s[i6] == 125 else s[i6] == 44 && Holds(s, i6 + 1, WriteMembers(next.value)))
        && i + |WriteMembers(x)| == i6 + 1 + if next.None? then 0 else |WriteMembers(next.value)|
  {
    hide Holds, Write, Closing;
    match x
    case NoMember(w) =>
      HoldsConcat(s, i, w, [125]);
      HoldsOne(s, i + |w|, 125);
    case Member(w, key, w1, w2, t, w', next) =>
      var end := if next.None? then [125] else [44] + WriteMembers(next.value);
      var val := w2 + (Write(t) + (w' + end));
      var i1 := i + |w|;
      var i2 := i1 + 1 + |Closing(key)|;
      var i3 := i2 + |w1|;
      var i6 := i3 + 1 + |w2| + |Write(t)| + |w'|;
      HoldsConcat(s, i, w, WriteString(key) + (w1 + ([58] + val)));
      HoldsConcat(s, i1, WriteString(key), w1 + ([58] + val));
      HoldsConcat(s, i1, [34], Closing(key));
      HoldsOne(s, i1, 34);
      HoldsConcat(s, i2, w1, [58] + val);
      HoldsConcat(s, i3, [58], val);
      HoldsOne(s, i3, 58);
      HoldsConcat(s, i3 + 1, w2, Write(t) + (w' + end));
      HoldsConcat(s, i3 + 1 + |w2|, Write(t), w' + end);
      HoldsConcat(s, i3 + 1 + |w2| + |Write(t)|, w', end);
      HoldsOne(s, i6, 125);
      HoldsOne(s, i6, 44);
      if next.Some? { HoldsConcat(s, i6, [44], WriteMembers(next.value)); }
  }

  /** One round of the object loop. */
  lemma ObjectRound(s: seq<byte>, i: nat, i1: nat, i2: nat, i3: nat, i4: nat, i5: nat, i6: nat, key: seq<byte>, val: Value, res: map<Key, Value>)
    requires i <= i1 < i2 <= i3 < i4 < i5 <= i6 < |s|
    requires SkipSpaces(s, i) == i1 && s[i1] == 34 && ParseString(s, i1) == Done(key, i2)
    requires SkipSpaces(s, i2) == i3 && s[i3] == 58 && SkipSpaces(s, i3 + 1) == i4
    requires Parse(s, i4) == Done(val, i5) && SkipSpaces(s, i5) == i6 && (s[i6] == 125 || s[i6] == 44)
    ensures
      var res' := Assign(res, Named(key), val);
      ObjectRest(s, i, res) == if s[i6] == 125 then Done(Table(res'), i6 + 1) else ObjectRest(s, i6 + 1, res')
  {
    hide SkipSpaces, ParseString, Parse, Assign;
  }

  lemma EmptyObject(s: seq<byte>, i: nat, i1: nat, res: map<Key, Value>)
    requires i <= i1 < |s| && SkipSpaces(s, i) == i1 && s[i1] == 125
    ensures ObjectRest(s, i, res) == Done(Table(res), i1 + 1)
  {
    hide SkipSpaces, Parse;
  }

  lemma MemberStands(s: seq<byte>, i: nat, x: Members)
    requires x.Member? && Holds(s, i, WriteMembers(x))
    ensures
      var i1 := i + |x.before|;
      var i2 := i1 + 1 + |Closing(x.key)|;
      var i3 := i2 + |x.behind|;
      var i4 := i3 + 1 + |x.gap|;
      var i5 := i4 + |Write(x.t)|;
      var i6 := i5 + |x.after|;
      && i5 <= |s| && i6 < |s| && Holds(s, i, x.before) && s[i1] == 34 && Holds(s, i1 + 1, Closing(x.key))
      && Holds(s, i2, x.behind) && s[i3] == 58 && Holds(s, i3 + 1, x.gap) && Holds(s, i4, Write(x.t)) && Holds(s, i5, x.after)
      && if x.next.None? then s[i6] == 125 else s[i6] == 44 && Holds(s, i6 + 1, WriteMembers(x.next.value))
  {
    hide Write, WriteMembers, Closing;
    MemberHolds(s, i, x);
  }

  lemma NoMemberParsed(s: seq<byte>, i: nat, w: seq<byte>, res: map<Key, Value>)
    requires Spaces(w) && Holds(s, i, WriteMembers(NoMember(w)))
    ensures ObjectRest(s, i, res) == Done(Table(res), i + |WriteMembers(NoMember(w))|)
  {
    hide Parse, SkipSpaces, WriteMembers, ObjectRest;
    MemberHolds(s, i, NoMember(w));
    SpacesSkipped(s, i, w);
    EmptyObject(s, i, i + |w|, res);
    WrittenEmpty(w);
  }

  lemma KeyParsed(s: seq<byte>, i: nat, ps: seq<Piece>)
    requires StringOk(ps) && i < |s| && Holds(s, i + 1, Closing(ps))
    ensures ParseString(s, i) == Done(StringText(ps).value, i + 1 + |Closing(ps)|)
  {
    hide StringRest, Closing, StringText;
    StringParsed(s, i, i + 1, ps, []);
    assert [] + StringText(ps).value == StringText(ps).value;
  }

  lemma {:induction false} MembersParsed(s: seq<byte>, i: nat, x: Members, res: map<Key, Value>)
    requires MembersOk(x) && Holds(s, i, WriteMembers(x))
    ensures ObjectRest(s, i, res) == Done(Table(MembersInto(x, res)), i + |WriteMembers(x)|)
    decreases x
  {
    hide Parse, SkipSpaces, Write, WriteMembers, TextOk, Denoted, Assign, ObjectRest, ParseString, StringText, Closing, Holds, Spaces, PiecesOk;
    match x
    case NoMember(w) => NoMemberParsed(s, i, w, res);
    case Member(w, key, w1, w2, t, w', next) =>
      MemberHolds(s, i, x);
      MemberStands(s, i, x);
      var i1 := i + |w|;
      var i2 := i1 + 1 + |Closing(key)|;
      var i3 := i2 + |w1|;
      var i4 := i3 + 1 + |w2|;
      var i5 := i4 + |Write(t)|;
      var i6 := i5 + |w'|;
      SpacesSkipped(s, i, w);
      KeyParsed(s, i1, key);
      SpacesSkipped(s, i2, w1);
      TextStart(t);
      HoldsFirst(s, i4, Write(t));
      SpacesSkipped(s, i3 + 1, w2);
      SpacesSkipped(s, i5, w');
      DelimAfter(s, i5, w');
      TextParsed(s, i4, t);
      ObjectRound(s, i, i1, i2, i3, i4, i5, i6, StringText(key).value, Denoted(t), res);
      if next.Some? {
        MembersParsed(s, i6 + 1, next.value, Assign(res, Named(StringText(key).value), Denoted(t)));
      }
  }

  // ---------------------------------------------------------------- printed numbers

  lemma {:induction false} DigitsBack(n: nat)
    ensures AllDigits(Digits(n)) && DigitsValue(Digits(n)) == n
  {
    if n >= 10 {
      DigitsBack(n / 10);
      var d := Digits(n);
      assert d[..|d| - 1] == Digits(n / 10);
    } else {
      assert DigitsValue([]) == 0;
      assert Digits(n)[..0] == [];
    }
  }

  /** Decimal notation: a digit more behind the digits. */
  lemma DecimalDigits(n: nat, d: nat)
    requires d < 10
    ensures Digits(d) == [48 + d]
    ensures n > 0 ==> Digits(10 * n + d) == Digits(n) + [48 + d]
    ensures n > 0 ==> EncodeNumber(n) == Digits(n) && EncodeNumber(0 - n) == [45] + Digits(n)
  {
  }

  lemma {:induction false} DigitsShort(n: nat, k: nat, limit: nat)
    requires n < limit && k > 0 && limit == PowerOfTen(k)
    ensures |Digits(n)| <= k
  {
    if n >= 10 {
      DigitsShort(n / 10, k - 1, PowerOfTen(k - 1));
    }
  }

  function PowerOfTen(k: nat): nat {
    if k == 0 then 1 else 10 * PowerOfTen(k - 1)
  }

  lemma FourteenDigits(n: nat)
    requires n < NUM_LIMIT
    ensures |Digits(n)| <= 14
  {
    assert PowerOfTen(7) == 10_000_000;
    assert PowerOfTen(14) == 10_000_000 * PowerOfTen(7);
    DigitsShort(n, 14, NUM_LIMIT);
  }

  lemma NumeralBack(n: int)
    requires -NUM_LIMIT < n < NUM_LIMIT
    ensures
      var t := EncodeNumber(n);
      && t != [] && IntegerNumeral(t) && IntegerValue(t) == n
      && (forall i :: 0 <= i < |t| ==> !IsDelim(t[i]))
      && (48 <= t[0] <= 57 || t[0] == 45)
  {
    hide Digits, DigitsValue;
    var m := if n < 0 then -n else n;
    DigitsBack(m);
    FourteenDigits(m);
    if n < 0 {
      assert EncodeNumber(n)[1..] == Digits(m);
    }
  }

  // ---------------------------------------------------------------- the meaning of a walked value

  /** The Lua value a walked value denotes: tables are filled in walking order. */
  function Meaning(n: Node): Value {
    match n
    case NBool(b) => Bool(b)
    case NNum(k) => Num(k)
    case NStr(s) => Str(s)
    case NArr(items) => Table(FillItems(items, 1, map[]))
    case NObj(fields) => Table(FillFields(fields, map[]))
  }

  function FillItems(items: seq<Node>, n: nat, res: map<Key, Value>): map<Key, Value> {
    if items == [] then res else FillItems(items[1..], n + 1, Assign(res, At(n), Meaning(items[0])))
  }

  function FillFields(fields: seq<Field>, res: map<Key, Value>): map<Key, Value> {
    if fields == [] then res else FillFields(fields[1..], Assign(res, Named(fields[0].key), Meaning(fields[0].val)))
  }

  /** Integers stay where they print exactly. */
  predicate Printable(n: Node) {
    match n
    case NNum(k) => -NUM_LIMIT < k < NUM_LIMIT
    case NArr(items) => forall x :: x in items ==> Printable(x)
    case NObj(fields) => forall f :: f in fields ==> Printable(f.val)
    case _ => true
  }

  // ---------------------------------------------------------------- walking order

  /** A walk of a value means that value, whatever the order. */
  lemma {:induction false} RepresentsMeaning(v: Value, n: Node)
    requires Represents(v, n)
    ensures Meaning(n) == v && Printable(n)
    decreases n, 1
  {
    hide FillItems, FillFields;
    match n
    case NArr(items) =>
      forall i | 0 <= i < |items|
        ensures ItemMeans(v.entries, items, i) && Printable(items[i])
      {
        var x := items[i];
        RepresentsMeaning(v.entries[At(i + 1)], x);
        NeverNil(v.entries[At(i + 1)], items[i]);
      }
      ItemsAreEntries(v.entries, items);
    case NObj(fields) =>
      forall i | 0 <= i < |fields|
        ensures Named(fields[i].key) in v.entries && Meaning(fields[i].val) == v.entries[Named(fields[i].key)]
        ensures Printable(fields[i].val) && !Meaning(fields[i].val).Nil?
      {
        RepresentsMeaning(v.entries[Named(fields[i].key)], fields[i].val);
        NeverNil(v.entries[Named(fields[i].key)], fields[i].val);
      }
      FieldsAreEntries(v.entries, fields);
    case _ =>
  }

  ghost predicate ItemMeans(entries: map<Key, Value>, items: seq<Node>, i: nat)
    requires i < |items|
  {
    At(i + 1) in entries && Meaning(items[i]) == entries[At(i + 1)] && !Meaning(items[i]).Nil?
  }

  lemma ItemsAreEntries(entries: map<Key, Value>, items: seq<Node>)
    requires forall k :: k in entries ==> k.At? && 1 <= k.i <= |items|
    requires forall i :: 0 <= i < |items| ==> ItemMeans(entries, items, i)
    ensures FillItems(items, 1, map[]) == entries
  {
    hide Meaning, FillItems;
    assert forall i :: 0 <= i < |items| ==> ItemMeans(entries, items, i) && !Meaning(items[i]).Nil?;
    FilledItems(items, 1, map[]);
    var m := FillItems(items, 1, map[]);
    forall k: Key | k.At? && 1 <= k.i < 1 + |items|
      ensures k in m && k in entries && m[k] == entries[k]
    {
      var j := k.i - 1;
      assert At(j + 1) == k && ItemMeans(entries, items, j);
      assert At(1 + j) == k && m[At(1 + j)] == Meaning(items[j]);
    }
  }

  lemma FieldsAreEntries(entries: map<Key, Value>, fields: seq<Field>)
    requires forall k :: k in entries ==> k.Named? && exists i :: 0 <= i < |fields| && fields[i].key == k.s
    requires forall i, j :: 0 <= i < j < |fields| ==> fields[i].key != fields[j].key
    requires forall i :: 0 <= i < |fields| ==>
               Named(fields[i].key) in entries && Meaning(fields[i].val) == entries[Named(fields[i].key)] && !Meaning(fields[i].val).Nil?
    ensures FillFields(fields, map[]) == entries
  {
    hide Meaning, FillFields;
    FilledFields(fields, map[]);
    var m := FillFields(fields, map[]);
    forall k: Key | k in m
      ensures k in entries && m[k] == entries[k]
    {
      var i :| 0 <= i < |fields| && fields[i].key == k.s;
      assert k == Named(fields[i].key);
    }
  }

  lemma NeverNil(v: Value, n: Node)
    requires Represents(v, n)
    ensures !v.Nil?
  {
  }

  lemma {:induction false} FilledItems(items: seq<Node>, n: nat, res: map<Key, Value>)
    requires forall i :: 0 <= i < |items| ==> !Meaning(items[i]).Nil?
    requires forall k :: k in res ==> k.At? && k.i < n
    ensures
      var m := FillItems(items, n, res);
      && (forall k :: k in m <==> k in res || (k.At? && n <= k.i < n + |items|))
      && (forall k :: k in res ==> m[k] == res[k])
      && (forall i :: 0 <= i < |items| ==> m[At(n + i)] == Meaning(items[i]))
    decreases items
  {
    hide Meaning;
    if items != [] {
      var res' := Assign(res, At(n), Meaning(items[0]));
      FilledItems(items[1..], n + 1, res');
      var m := FillItems(items, n, res);
      forall i | 0 <= i < |items|
        ensures At(n + i) in m && m[At(n + i)] == Meaning(items[i])
      {
        if i > 0 {
          assert items[1..][i - 1] == items[i];
          assert At(n + 1 + (i - 1)) == At(n + i);
        }
      }
    }
  }

  /** Filling in distinct, new keys: they are all there, each with its own value. */
  lemma {:induction false} FilledFields(fields: seq<Field>, res: map<Key, Value>)
    requires forall i :: 0 <= i < |fields| ==> !Meaning(fields[i].val).Nil? && Named(fields[i].key) !in res
    requires forall i, j :: 0 <= i < j < |fields| ==> fields[i].key != fields[j].key
    ensures
      var m := FillFields(fields, res);
      && (forall k :: k in m <==> k in res || (k.Named? && exists i :: 0 <= i < |fields| && fields[i].key == k.s))
      && (forall k :: k in res ==> m[k] == res[k])
      && (forall i :: 0 <= i < |fields| ==> m[Named(fields[i].key)] == Meaning(fields[i].val))
    decreases fields
  {
    hide Meaning;
    if fields != [] {
      var res' := Assign(res, Named(fields[0].key), Meaning(fields[0].val));
      FilledFields(fields[1..], res');
      var m := FillFields(fields, res);
      forall i | 0 <= i < |fields|
        ensures Named(fields[i].key) in m && m[Named(fields[i].key)] == Meaning(fields[i].val)
      {
        if i > 0 {
          assert fields[1..][i - 1] == fields[i];
        }
      }
      forall k | k in m
        ensures k in res || (k.Named? && exists i :: 0 <= i < |fields| && fields[i].key == k.s)
      {
        if k !in res' {
          var i :| 0 <= i < |fields[1..]| && fields[1..][i].key == k.s;
          assert fields[i + 1].key == k.s;
        }
      }
    }
  }

  // ---------------------------------------------------------------- nothing but texts is read

  /** A string that is read is made of pieces. */
  lemma {:induction false} StringSound(s: seq<byte>, start: nat, j: nat, res: seq<byte>) returns (ps: seq<Piece>)
    requires j <= |s| && StringRest(s, start, j, res).Done?
    ensures StringOk(ps) && Holds(s, j, Closing(ps))
    decreases |s| - j
  {
    hide Closing, Hex4, HexValue, EscapedCodepoint, CodepointToUtf8, PairAt, Hex4At, Holds;
    if s[j] == 34 {
      ps := [];
      ClosingFront(s, j, ps);
    } else if s[j] == 92 && CharAt(s, j + 1) == Some(117) {
      var u := CodepointToUtf8(EscapedCodepoint(s, j + 2));
      var d := if PairAt(s, j + 2) then 10 else 4;
      EscapeFits(s, j + 2);
      var rest := StringSound(s, start, j + 2 + d, res + u.value);
      ps := UnicodeSound(s, j, rest);
    } else {
      var x := if s[j] == 92 then Short(s[j + 1]) else Raw(s[j]);
      var d := if s[j] == 92 then 2 else 1;
      var rest := StringSound(s, start, j + d, res + [if s[j] == 92 then UnescapeLetter(s[j + 1]).value else s[j]]);
      ps := [x] + rest;
      assert ps[1..] == rest;
      PieceHolds(s, j, x);
      ClosingFront(s, j, ps);
    }
  }

  lemma EscapeFits(s: seq<byte>, i: nat)
    requires Hex4At(s, i)
    ensures i + (if PairAt(s, i) then 10 else 4) <= |s|
  {
  }

  lemma UnicodeSound(s: seq<byte>, j: nat, rest: seq<Piece>) returns (ps: seq<Piece>)
    requires j + 2 <= |s| && s[j] == 92 && s[j + 1] == 117 && Hex4At(s, j + 2)
    requires CodepointToUtf8(EscapedCodepoint(s, j + 2)).Some?
    requires StringOk(rest) && Holds(s, j + 2 + (if PairAt(s, j + 2) then 10 else 4), Closing(rest))
    ensures StringOk(ps) && Holds(s, j, Closing(ps))
  {
    hide Closing, Hex4, HexValue, CodepointToUtf8, Holds;
    var h := s[j + 2..j + 6];
    HexAnywhere(s, j + 2, h);
    PairIs(s, j + 2);
    if PairAt(s, j + 2) {
      ps := PairSound(s, j, rest);
    } else {
      ps := [Unicode(h)] + rest;
      assert ps[1..] == rest;
      EscapeHere(s, j + 6, rest);
      PieceHolds(s, j, Unicode(h));
      ClosingFront(s, j, ps);
    }
  }

  lemma PairSound(s: seq<byte>, j: nat, rest: seq<Piece>) returns (ps: seq<Piece>)
    requires j + 12 <= |s| && s[j] == 92 && s[j + 1] == 117 && Hex4At(s, j + 2) && PairAt(s, j + 2)
    requires CodepointToUtf8(EscapedCodepoint(s, j + 2)).Some?
    requires StringOk(rest) && Holds(s, j + 12, Closing(rest))
    ensures StringOk(ps) && Holds(s, j, Closing(ps))
  {
    hide Closing, Hex4, HexValue, CodepointToUtf8, Holds;
    PairIs(s, j + 2);
    var h, h' := s[j + 2..j + 6], s[j + 8..j + 12];
    HexAnywhere(s, j + 2, h);
    HexAnywhere(s, j + 8, h');
    PieceHolds(s, j, Unicode(h));
    PieceHolds(s, j + 6, Unicode(h'));
    var tail := [Unicode(h')] + rest;
    ps := [Unicode(h)] + tail;
    assert ps[2..] == rest && ps[1..] == tail && tail[1..] == rest;
    ClosingFront(s, j + 6, tail);
    ClosingFront(s, j, ps);
  }

  /** A token ends at a delimiter or at the end, and holds none. */
  lemma {:induction false} TokenFound(s: seq<byte>, i: nat)
    requires i <= |s|
    ensures var x := FindDelim(s, i); x < |s| ==> IsDelim(s[x])
    decreases |s| - i
  {
    if i < |s| && !IsDelim(s[i]) {
      TokenFound(s, i + 1);
    }
  }

  /** Whatever the parser reads is a text, and is read as what the text stands for. */
  lemma {:induction false} TextSound(s: seq<byte>, i: nat) returns (t: Text)
    requires i <= |s| && Parse(s, i).Done?
    ensures TextOk(t) && Holds(s, i, Write(t)) && Parse(s, i) == Done(Denoted(t), i + |Write(t)|)
    decreases |s| - i, 0
  {
    hide Parse, TextOk, Denoted, Holds, Write;
    if s[i] == 34 || s[i] == 91 || s[i] == 123 {
      t := CompoundSound(s, i);
    } else {
      t := TokenSound(s, i);
    }
    TextParsed(s, i, t);
  }

  lemma TokenSound(s: seq<byte>, i: nat) returns (t: Text)
    requires i < |s| && Parse(s, i).Done? && s[i] != 34 && s[i] != 91 && s[i] != 123
    ensures TextOk(t) && (t.TNum? || t.TBool? || t.TNull?) && Holds(s, i, Write(t))
    ensures i + |Write(t)| < |s| ==> IsDelim(s[i + |Write(t)|])
  {
    hide IntegerNumeral, IntegerValue, ParseString, Numeral, ArrayRest, ObjectRest;
    TokenFound(s, i);
    var word := s[i..FindDelim(s, i)];
    t := if 48 <= s[i] <= 57 || s[i] == 45 then TNum(word) else if word == [116, 114, 117, 101] then TBool(true)
         else if word == [102, 97, 108, 115, 101] then TBool(false) else TNull;
  }

  lemma {:induction false} CompoundSound(s: seq<byte>, i: nat) returns (t: Text)
    requires i < |s| && Parse(s, i).Done? && (s[i] == 34 || s[i] == 91 || s[i] == 123)
    ensures TextOk(t) && (t.TStr? || t.TArr? || t.TObj?) && Holds(s, i, Write(t))
    decreases |s| - i - 1, 2
  {
    hide StringRest, ArrayRest, ObjectRest, ParseNumber, ParseLiteral, Holds, WriteItems, WriteMembers, Closing;
    if s[i] == 34 {
      var ps := StringSound(s, i, i + 1, []);
      t := TStr(ps);
    } else if s[i] == 91 {
      var x := ItemsSound(s, i + 1, 1, map[]);
      t := TArr(x);
    } else {
      var x := MembersSound(s, i + 1, map[]);
      t := TObj(x);
    }
    TextHolds(s, i, t);
  }

  lemma {:induction false} ItemsSound(s: seq<byte>, i: nat, n: nat, res: map<Key, Value>) returns (x: Items)
    requires i <= |s| && ArrayRest(s, i, n, res).Done?
    ensures ItemsOk(x) && Holds(s, i, WriteItems(x))
    decreases |s| - i, 1
  {
    hide Parse, SkipSpaces, Write, WriteItems, TextOk, Denoted, Assign, Holds, Spaces;
    var i1 := SkipSpaces(s, i);
    SkippedSpaces(s, i);
    var w := s[i..i1];
    if CharAt(s, i1) == Some(93) {
      x := NoItem(w);
    } else {
      var t := TextSound(s, i1);
      var i2 := i1 + |Write(t)|;
      var i3 := SkipSpaces(s, i2);
      SkippedSpaces(s, i2);
      var next: Option<Items> := None;
      if s[i3] == 44 {
        var more := ItemsSound(s, i3 + 1, n + 1, Assign(res, At(n), Denoted(t)));
        next := Some(more);
      }
      x := Item(w, t, s[i2..i3], next);
    }
    ItemHolds(s, i, x);
  }

  lemma KeySound(s: seq<byte>, i: nat) returns (key: seq<Piece>)
    requires i < |s| && ParseString(s, i).Done?
    ensures StringOk(key) && Holds(s, i + 1, Closing(key))
    ensures ParseString(s, i) == Done(StringText(key).value, i + 1 + |Closing(key)|)
  {
    hide StringRest, Closing, StringText, PiecesOk;
    key := StringSound(s, i, i + 1, []);
    KeyParsed(s, i, key);
  }

  /** What an object's rest that is read has in it. */
  lemma ObjectDone(s: seq<byte>, i: nat, res: map<Key, Value>)
    requires i <= |s| && ObjectRest(s, i, res).Done?
    ensures
      var i1 := SkipSpaces(s, i);
      && i1 < |s|
      && (s[i1] != 125 ==>
            && s[i1] == 34 && ParseString(s, i1).Done?
            && var i3 := SkipSpaces(s, ParseString(s, i1).next);
            && i3 < |s| && s[i3] == 58
            && var val := Parse(s, SkipSpaces(s, i3 + 1));
            && val.Done?
            && var i6 := SkipSpaces(s, val.next);
            && i6 < |s| && (s[i6] == 125 || s[i6] == 44)
            && (s[i6] == 44 ==> ObjectRest(s, i6 + 1, Assign(res, Named(ParseString(s, i1).value), val.value)).Done?))
  {
    hide SkipSpaces, ParseString, Parse, Assign;
  }

  /** The first field of an object's rest, up to the comma or the bracket behind it. */
  lemma {:induction false} FieldSound(s: seq<byte>, i: nat, res: map<Key, Value>) returns (x: Members, end: nat)
    requires i <= |s| && ObjectRest(s, i, res).Done? && s[SkipSpaces(s, i)] != 125
    ensures x.Member? && x.next.None? && Spaces(x.before) && StringOk(x.key) && Spaces(x.behind) && Spaces(x.gap) && TextOk(x.t) && Spaces(x.after)
    ensures
      var i1 := i + |x.before|;
      var i2 := i1 + 1 + |Closing(x.key)|;
      var i4 := i2 + |x.behind| + 1 + |x.gap|;
      var i5 := i4 + |Write(x.t)|;
      && Holds(s, i, x.before) && i1 < |s| && s[i1] == 34 && Holds(s, i1 + 1, Closing(x.key)) && Holds(s, i2, x.behind)
      && i4 <= |s| && s[i2 + |x.behind|] == 58 && Holds(s, i2 + |x.behind| + 1, x.gap)
      && Holds(s, i4, Write(x.t)) && Holds(s, i5, x.after) && end == i5 + |x.after| && i < end < |s|
      && (s[end] == 125 || s[end] == 44)
      && (s[end] == 44 ==> ObjectRest(s, end + 1, Assign(res, Named(StringText(x.key).value), Denoted(x.t))).Done?)
    decreases |s| - i, 0
  {
    hide Parse, SkipSpaces, Write, WriteMembers, TextOk, Denoted, Assign, Holds, Spaces, ParseString, Closing, StringText, PiecesOk, ObjectRest;
    ObjectDone(s, i, res);
    var i1 := SkipSpaces(s, i);
    SkippedSpaces(s, i);
    var key := KeySound(s, i1);
    var i2 := i1 + 1 + |Closing(key)|;
    var i3 := SkipSpaces(s, i2);
    SkippedSpaces(s, i2);
    var i4 := SkipSpaces(s, i3 + 1);
    SkippedSpaces(s, i3 + 1);
    var t := TextSound(s, i4);
    var i5 := i4 + |Write(t)|;
    end := SkipSpaces(s, i5);
    SkippedSpaces(s, i5);
    x := Member(s[i..i1], key, s[i2..i3], s[i3 + 1..i4], t, s[i5..end], None);
  }

  lemma {:induction false} MembersSound(s: seq<byte>, i: nat, res: map<Key, Value>) returns (x: Members)
    requires i <= |s| && ObjectRest(s, i, res).Done?
    ensures MembersOk(x) && Holds(s, i, WriteMembers(x))
    decreases |s| - i, 1
  {
    hide Parse, SkipSpaces, Write, WriteMembers, TextOk, Denoted, Assign, Holds, Spaces, StringText, PiecesOk, ObjectRest, Closing;
    ObjectDone(s, i, res);
    var i1 := SkipSpaces(s, i);
    if s[i1] == 125 {
      SkippedSpaces(s, i);
      x := NoMember(s[i..i1]);
    } else {
      var y, end := FieldSound(s, i, res);
      x := y;
      if s[end] == 44 {
        var more := MembersSound(s, end + 1, Assign(res, Named(StringText(y.key).value), Denoted(y.t)));
        x := y.(next := Some(more));
      }
    }
    MemberHolds(s, i, x);
  }

  // ---------------------------------------------------------------- the language of the parser

  /** `s` is the text `t` with spaces around it, and `v` what it stands for. */
  ghost predicate Spells(s: seq<byte>, v: Value, lead: seq<byte>, t: Text, trail: seq<byte>) {
    Spaces(lead) && TextOk(t) && Spaces(trail) && s == lead + (Write(t) + trail) && v == Denoted(t)
  }

  /** Every text is decoded as the value it stands for, whatever spaces are in it. */
  lemma SpelledDecodes(s: seq<byte>, v: Value, lead: seq<byte>, t: Text, trail: seq<byte>)
    requires Spells(s, v, lead, t, trail)
    ensures Decode(s) == Done(v, |s|)
  {
    hide Parse, Write, TextOk, Denoted, Spaces, SkipSpaces;
    var i, j := |lead|, |lead| + |Write(t)|;
    assert s[0..|s|] == s;
    HoldsConcat(s, 0, lead, Write(t) + trail);
    HoldsConcat(s, i, Write(t), trail);
    TextStart(t);
    HoldsFirst(s, i, Write(t));
    SpacesSkipped(s, 0, lead);
    SpacesSkipped(s, j, trail);
    SpaceIsDelim(s, j, trail);
    TextParsed(s, i, t);
  }

  lemma SpaceIsDelim(s: seq<byte>, i: nat, w: seq<byte>)
    requires Spaces(w) && Holds(s, i, w) && i + |w| == |s|
    ensures i < |s| ==> IsDelim(s[i])
  {
    if w != [] { HoldsFirst(s, i, w); }
  }

  lemma DecodedSpells(s: seq<byte>) returns (lead: seq<byte>, t: Text, trail: seq<byte>)
    requires Decode(s).Done?
    ensures Decode(s).next == |s| && Spells(s, Decode(s).value, lead, t, trail)
  {
    hide Parse, Write, TextOk, Denoted, Spaces, SkipSpaces;
    var i := SkipSpaces(s, 0);
    SkippedSpaces(s, 0);
    t := TextSound(s, i);
    var j := i + |Write(t)|;
    SkippedSpaces(s, j);
    lead, trail := s[0..i], s[j..];
    assert s[j..SkipSpaces(s, j)] == trail;
    assert s == s[0..i] + (s[i..j] + s[j..]);
  }

  /** What the decoder accepts, and as what: exactly the texts, with any spaces around every
      token, each as the value it stands for. */
  lemma DecodesIffSpelled(s: seq<byte>, v: Value)
    ensures Decode(s).Done? ==> Decode(s).next == |s|
    ensures Decode(s) == Done(v, |s|) <==> exists lead, t, trail :: Spells(s, v, lead, t, trail)
  {
    hide Spells, Decode;
    if Decode(s).Done? {
      var lead, t, trail := DecodedSpells(s);
    }
    forall lead, t, trail | Spells(s, v, lead, t, trail)
      ensures Decode(s) == Done(v, |s|)
    {
      SpelledDecodes(s, v, lead, t, trail);
    }
  }

  // ---------------------------------------------------------------- the printer's texts

  /** The text shows the walked value: the same tables, item by item and field by field. */
  predicate Shows(t: Text, n: Node)
    requires TextOk(t)
  {
    match n
    case NBool(b) => t == TBool(b)
    case NNum(k) => t.TNum? && IntegerValue(t.token) == k
    case NStr(s) => t.TStr? && StringText(t.pieces) == Some(s)
    case NArr(items) => t.TArr? && ShowsItems(t.items, items)
    case NObj(fields) => t.TObj? && ShowsFields(t.members, fields)
  }

  predicate ShowsItems(x: Items, items: seq<Node>)
    requires ItemsOk(x)
  {
    match x
    case NoItem(_) => items == []
    case Item(_, t, _, next) =>
      && items != [] && Shows(t, items[0])
      && if next.None? then |items| == 1 else ShowsItems(next.value, items[1..])
  }

  predicate ShowsFields(x: Members, fields: seq<Field>)
    requires MembersOk(x)
  {
    match x
    case NoMember(_) => fields == []
    case Member(_, key, _, _, t, _, next) =>
      && fields != [] && StringText(key) == Some(fields[0].key) && Shows(t, fields[0].val)
      && if next.None? then |fields| == 1 else ShowsFields(next.value, fields[1..])
  }

  /** A text that shows a walked value stands for what the value means. */
  lemma {:induction false} ShowsMeaning(t: Text, n: Node)
    requires TextOk(t) && Shows(t, n)
    ensures Denoted(t) == Meaning(n)
    decreases t
  {
    hide IntegerNumeral, IntegerValue, StringText;
    match n
    case NArr(items) => ShowsFilledItems(t.items, items, 1, map[]);
    case NObj(fields) => ShowsFilledFields(t.members, fields, map[]);
    case _ =>
  }

  lemma {:induction false} ShowsFilledItems(x: Items, items: seq<Node>, n: nat, res: map<Key, Value>)
    requires ItemsOk(x) && ShowsItems(x, items)
    ensures ItemsInto(x, n, res) == FillItems(items, n, res)
    decreases x
  {
    hide Denoted, Meaning, Assign, TextOk, Shows;
    if x.Item? {
      ShowsMeaning(x.t, items[0]);
      var res' := Assign(res, At(n), Denoted(x.t));
      if x.next.Some? {
        ShowsFilledItems(x.next.value, items[1..], n + 1, res');
      } else {
        assert FillItems(items[1..], n + 1, res') == res';
      }
    }
  }

  lemma {:induction false} ShowsFilledFields(x: Members, fields: seq<Field>, res: map<Key, Value>)
    requires MembersOk(x) && ShowsFields(x, fields)
    ensures MembersInto(x, res) == FillFields(fields, res)
    decreases x
  {
    hide Denoted, Meaning, Assign, TextOk, Shows, StringText, PiecesOk;
    if x.Member? {
      ShowsMeaning(x.t, fields[0].val);
      var res' := Assign(res, Named(fields[0].key), Denoted(x.t));
      if x.next.Some? {
        ShowsFilledFields(x.next.value, fields[1..], res');
      } else {
        assert FillFields(fields[1..], res') == res';
      }
    }
  }

  /** Decoding any spelling of a value gives the value: with spaces around every token, with
      characters escaped in any way, and with its fields in any order. */
  lemma SpelledBack(v: Value, n: Node, lead: seq<byte>, t: Text, trail: seq<byte>)
    requires Represents(v, n) && TextOk(t) && Shows(t, n) && Spaces(lead) && Spaces(trail)
    ensures var s := lead + (Write(t) + trail); Decode(s) == Done(v, |s|)
  {
    hide Represents, Shows, TextOk, Denoted, Meaning, Write, Spaces, Decode;
    RepresentsMeaning(v, n);
    ShowsMeaning(t, n);
    SpelledDecodes(lead + (Write(t) + trail), v, lead, t, trail);
  }

  lemma OneDigit()
    ensures TextOk(TNum([49])) && Denoted(TNum([49])) == Num(1)
  {
    assert [49 as byte][..0] == [];
  }

  /** More than the grammar of RFC 8259 is taken in: a comma may stand before a closing bracket. */
  lemma CommaAtTheEnd()
    ensures Decode([91, 49, 44, 93]) == Done(Table(map[At(1) := Num(1)]), 4)
  {
    hide Decode, IntegerNumeral, IntegerValue;
    OneDigit();
    var x := Item([], TNum([49]), [], Some(NoItem([])));
    assert ItemsInto(x, 1, map[]) == map[At(1) := Num(1)];
    SpelledDecodes([91, 49, 44, 93], Table(map[At(1) := Num(1)]), [], TArr(x), []);
  }

  /** A null leaves its place in the array empty. */
  lemma NullLeavesGap()
    ensures Decode([91, 110, 117, 108, 108, 44, 49, 93]) == Done(Table(map[At(2) := Num(1)]), 8)
  {
    hide Decode, IntegerNumeral, IntegerValue;
    OneDigit();
    var x := Item([], TNull, [], Some(Item([], TNum([49]), [], None)));
    assert ItemsInto(x, 1, map[]) == map[At(2) := Num(1)];
    SpelledDecodes([91, 110, 117, 108, 108, 44, 49, 93], Table(map[At(2) := Num(1)]), [], TArr(x), []);
  }

  /** What the printer makes of each character of a string. */
  lemma PrintedCharacters(c: byte, s: seq<byte>)
    ensures
      EscapeAll([c] + s) ==
      (if c == 8 then [92, 98] else if c == 9 then [92, 116] else if c == 10 then [92, 110]
       else if c == 12 then [92, 102] else if c == 13 then [92, 114] else if c == 34 then [92, 34]
       else if c == 92 then [92, 92]
       else if c < 16 then [92, 117, 48, 48, 48, "0123456789abcdef"[c as int] as int]
       else if c < 32 then [92, 117, 48, 48, 49, "0123456789abcdef"[c as int - 16] as int]
       else [c]) + EscapeAll(s)
  {
    assert ([c] + s)[1..] == s;
    if c < 32 { HexDigits(c as int % 16); }
  }

  /** How the printer writes a character. */
  function PieceOf(c: byte): Piece {
    if c == 8 then Short(98) else if c == 9 then Short(116) else if c == 10 then Short(110)
    else if c == 12 then Short(102) else if c == 13 then Short(114) else if c == 34 then Short(34)
    else if c == 92 then Short(92)
    else if c < 32 then Unicode([48, 48, 48 + c / 16, if c % 16 < 10 then 48 + c % 16 else 87 + c % 16])
    else Raw(c)
  }

  function PiecesOf(s: seq<byte>): seq<Piece> {
    if s == [] then [] else [PieceOf(s[0])] + PiecesOf(s[1..])
  }

  /** The hexadecimal digits, as they are printed and as they are read. */
  lemma HexDigits(v: nat)
    requires v < 16
    ensures HexDigit(v) as int == "0123456789abcdef"[v] as int
    ensures HexValue(HexDigit(v)) == Some(v)
    ensures HexValue(("0123456789ABCDEF"[v] as int) as byte) == Some(v)
  {
    var i := v as int;
    assert i == 0 || i == 1 || i == 2 || i == 3 || i == 4 || i == 5 || i == 6 || i == 7
        || i == 8 || i == 9 || i == 10 || i == 11 || i == 12 || i == 13 || i == 14 || i == 15;
  }

  lemma PieceOfOk(c: byte)
    ensures
      var x := PieceOf(c);
      && PieceOk(x) && Group([x]) == 1 && GroupText([x]) == Some([c])
      && (x.Unicode? ==> !IsHigh(Hex4(x.hex, 0)))
      && WritePiece(x) == if MustEscape(c) then EscapeChar(c) else [c]
  {
    if c < 32 {
      HexDigits(c as int / 16);
      HexDigits(c as int % 16);
    }
  }

  lemma {:induction false} PiecesOfOk(s: seq<byte>)
    ensures
      var ps := PiecesOf(s);
      PiecesOk(ps) && StringText(ps) == Some(s) && WritePieces(ps) == EscapeAll(s)
  {
    hide PieceOf, EscapeChar, MustEscape, WritePiece, PieceOk, Hex4;
    if s != [] {
      var x, ps := PieceOf(s[0]), PiecesOf(s);
      PieceOfOk(s[0]);
      PiecesOfOk(s[1..]);
      assert ps[0] == x && ps[1..] == PiecesOf(s[1..]);
      assert [x][0] == x;
      assert [s[0]] + s[1..] == s;
    }
  }

  lemma StringIsText(s: seq<byte>)
    ensures StringOk(PiecesOf(s)) && StringText(PiecesOf(s)) == Some(s) && WriteString(PiecesOf(s)) == EncodeString(s)
  {
    hide EscapeAll, StringText, PiecesOk;
    PiecesOfOk(s);
  }

  /** The walked value without any spaces. */
  function Compact(n: Node): Text {
    match n
    case NBool(b) => TBool(b)
    case NNum(k) => TNum(EncodeNumber(k))
    case NStr(s) => TStr(PiecesOf(s))
    case NArr(items) => TArr(CompactItems(items))
    case NObj(fields) => TObj(CompactFields(fields))
  }

  function CompactItems(items: seq<Node>): Items {
    if items == [] then NoItem([])
    else Item([], Compact(items[0]), [], if |items| == 1 then None else Some(CompactItems(items[1..])))
  }

  function CompactFields(fields: seq<Field>): Members {
    if fields == [] then NoMember([])
    else Member([], PiecesOf(fields[0].key), [], [], Compact(fields[0].val), [],
                if |fields| == 1 then None else Some(CompactFields(fields[1..])))
  }

  /** What the printer prints is one of the texts, and it shows what was printed. */
  lemma {:induction false} EncodeIsText(n: Node)
    requires Printable(n)
    ensures TextOk(Compact(n)) && Shows(Compact(n), n) && Encode(n) == Write(Compact(n))
    decreases n
  {
    hide EncodeNumber, IntegerNumeral, IntegerValue, StringText, PiecesOk, EncodeString, WriteString;
    match n
    case NNum(k) => NumeralBack(k);
    case NStr(s) => StringIsText(s);
    case NArr(items) => ItemsAreText(items);
    case NObj(fields) => FieldsAreText(fields);
    case _ =>
  }

  lemma {:induction false} ItemsAreText(items: seq<Node>)
    requires forall x :: x in items ==> Printable(x)
    ensures
      var x := CompactItems(items);
      ItemsOk(x) && ShowsItems(x, items) && EncodeItems(items) + [93] == WriteItems(x)
    decreases items
  {
    hide Encode, Write, TextOk, Shows, Printable, Compact;
    if items != [] {
      var e := Encode(items[0]);
      assert items[0] in items;
      EncodeIsText(items[0]);
      if |items| == 1 {
        assert [] + (e + ([] + [93])) == e + [93];
      } else {
        var rest := EncodeItems(items[1..]);
        ItemsAreText(items[1..]);
        assert [] + (e + ([] + ([44] + (rest + [93])))) == (e + [44] + rest) + [93];
      }
    }
  }

  lemma {:induction false} FieldsAreText(fields: seq<Field>)
    requires forall f :: f in fields ==> Printable(f.val)
    ensures
      var x := CompactFields(fields);
      MembersOk(x) && ShowsFields(x, fields) && EncodeFields(fields) + [125] == WriteMembers(x)
    decreases fields
  {
    hide Encode, Write, TextOk, Shows, Printable, Compact, EncodeString, WriteString, StringText, PiecesOk;
    if fields != [] {
      var key, e := EncodeString(fields[0].key), Encode(fields[0].val);
      assert fields[0] in fields;
      EncodeIsText(fields[0].val);
      StringIsText(fields[0].key);
      if |fields| == 1 {
        assert [] + (key + ([] + ([58] + ([] + (e + ([] + [125])))))) == (key + [58] + e) + [125];
      } else {
        var rest := EncodeFields(fields[1..]);
        FieldsAreText(fields[1..]);
        assert [] + (key + ([] + ([58] + ([] + (e + ([] + ([44] + (rest + [125]))))))))
            == (key + [58] + e + [44] + rest) + [125];
      }
    }
  }

  /** Parsing an encoding gives the value back, in any surroundings. */
  lemma ValueBack(p: seq<byte>, n: Node, e: seq<byte>)
    requires Printable(n)
    requires e == [] || IsDelim(e[0])
    ensures Parse(p + Encode(n) + e, |p|) == Done(Meaning(n), |p| + |Encode(n)|)
  {
    hide Parse, Printable, Compact, Shows, TextOk, Denoted, Meaning, Encode, Write;
    var s := p + Encode(n) + e;
    EncodeIsText(n);
    ShowsMeaning(Compact(n), n);
    TextParsed(s, |p|, Compact(n));
  }

  /** Any byte string is read back from its encoding. */
  lemma StringBack(p: seq<byte>, t: seq<byte>, e: seq<byte>, start: nat, res: seq<byte>)
    ensures
      var s := p + EscapeAll(t) + [QUOTE] + e;
      StringRest(s, start, |p|, res) == Done(res + t, |p| + |EscapeAll(t)| + 1)
  {
    hide StringRest, EscapeAll, StringText, PiecesOk;
    var s := p + EscapeAll(t) + [QUOTE] + e;
    PiecesOfOk(t);
    assert s == p + Closing(PiecesOf(t)) + e;
    StringParsed(s, start, |p|, PiecesOf(t), res);
  }

  /** Decoding what was encoded gives the value back: for every value built from booleans, byte
      strings, integers below 10^14, arrays and non-empty objects, nested to any depth, and
      every order in which the tables may have been walked. */
  lemma RoundTrip(v: Value, n: Node)
    requires Represents(v, n)
    ensures Decode(Encode(n)) == Done(v, |Encode(n)|)
  {
    hide Represents, Compact, Shows, TextOk, Denoted, Encode, Write, Decode, Printable;
    RepresentsMeaning(v, n);
    EncodeIsText(n);
    SpelledBack(v, n, [], Compact(n), []);
    assert [] + (Encode(n) + []) == Encode(n);
  }
}

/** The Redis serialization protocol: values, their encoding and an owning parser
    (src/protocol/resp.rs, src/protocol/encoder.rs, src/protocol/stateless.rs). */
module Resp {
  import opened ClusterState

  newtype byte = x: int | 0 <= x < 256

  type Bytes = seq<byte>

  const CR: byte := 13
  const LF: byte := 10
  const CRLF: Bytes := [CR, LF]
  const PLUS: byte := 43
  const MINUS: byte := 45
  const COLON: byte := 58
  const DOLLAR: byte := 36
  const STAR: byte := 42
  const MAX_LEN := 0x8000_0000_0000_0000

  /** A value over payloads of type `T`: bytes, or index ranges into a buffer. */
  datatype Resp<+T> =
    | Error(line: T)
    | Simple(line: T)
    | Integer(line: T)
    | NilBulk
    | Bulk(body: T)
    | NilArr
    | Arr(elems: seq<Resp<T>>)

  // ----- decimal numbers -----

  predicate IsDigit(b: byte) {
    48 <= b <= 57
  }

  function Digit(b: byte): nat
    requires IsDigit(b)
  {
    (b - 48) as nat
  }

  function Decimal(n: nat): (ds: Bytes)
    ensures ds != [] && forall i :: 0 <= i < |ds| ==> IsDigit(ds[i])
  {
    if n < 10 then [(48 + n) as byte] else Decimal(n / 10) + [(48 + n % 10) as byte]
  }

  function DigitsValue(ds: Bytes): (n: nat)
    requires forall i :: 0 <= i < |ds| ==> IsDigit(ds[i])
  {
    if ds == [] then 0 else DigitsValue(ds[..|ds| - 1]) * 10 + Digit(ds[|ds| - 1])
  }

  lemma {:induction false} DecimalValue(n: nat)
    ensures DigitsValue(Decimal(n)) == n
  {
    if n >= 10 {
      DecimalValue(n / 10);
      var ds := Decimal(n);
      assert ds[..|ds| - 1] == Decimal(n / 10);
    }
  }

  function Number(ds: Bytes): Option<nat> {
    if ds == [] || exists i :: 0 <= i < |ds| && !IsDigit(ds[i]) then None else Some(DigitsValue(ds))
  }

  /** An optional sign, then digits, within 64 bits. */
  function Btoi(bs: Bytes): Option<int> {
    if bs == [] then None
    else if bs[0] == MINUS then
      var n := Number(bs[1..]);
      if n.None? || n.value > MAX_LEN then None else Some(-(n.value as int))
    else
      var n := Number(if bs[0] == PLUS then bs[1..] else bs);
      if n.None? || n.value >= MAX_LEN then None else Some(n.value)
  }

  lemma BtoiDecimal(n: nat)
    requires n < MAX_LEN
    ensures Btoi(Decimal(n)) == Some(n)
  {
    DecimalValue(n);
    assert IsDigit(Decimal(n)[0]);
  }

  lemma BtoiMinusOne()
    ensures Btoi([MINUS, 49]) == Some(-1)
  {
    var one: Bytes := [49];
    assert [MINUS, 49][1..] == one;
    assert IsDigit(one[0]);
    assert one[..0] == [];
  }

  // ----- encoding -----

  function Line(prefix: byte, b: Bytes): Bytes {
    [prefix] + b + CRLF
  }

  function Encode(r: Resp<Bytes>): (bs: Bytes)
    decreases r
  {
    match r
    case Error(s) => Line(MINUS, s)
    case Simple(s) => Line(PLUS, s)
    case Integer(s) => Line(COLON, s)
    case NilBulk => [DOLLAR, MINUS, 49, CR, LF]
    case Bulk(s) => Line(DOLLAR, Decimal(|s|)) + s + CRLF
    case NilArr => [STAR, MINUS, 49, CR, LF]
    case Arr(es) => Line(STAR, Decimal(|es|)) + EncodeAll(es)
  }

  function EncodeAll(es: seq<Resp<Bytes>>): Bytes
    decreases es
  {
    if es == [] then [] else Encode(es[0]) + EncodeAll(es[1..])
  }

  // ----- parsing -----

  /** What a parser says of a buffer: a value and how many bytes it took, that more
      bytes are needed, or that no bytes can make it right. */
  datatype Parsed<+V> = Value(value: V, consumed: nat) | NotEnough | Invalid

  function FindLF(buf: Bytes): (i: nat)
    ensures i <= |buf| && (i < |buf| ==> buf[i] == LF) && forall k :: 0 <= k < i ==> buf[k] != LF
  {
    if buf == [] || buf[0] == LF then 0 else 1 + FindLF(buf[1..])
  }

  /** A line without its last byte before the line feed, which should be CR. */
  function ParseLine(buf: Bytes): (p: Parsed<Bytes>)
    ensures p.Value? ==> 2 <= p.consumed <= |buf| && |p.value| == p.consumed - 2
  {
    var i := FindLF(buf);
    if i == |buf| then NotEnough
    else if i == 0 then Invalid
    else Value(buf[..i - 1], i + 1)
  }

  function ParseLen(buf: Bytes): (p: Parsed<int>)
    ensures p.Value? ==> 2 <= p.consumed <= |buf|
  {
    match ParseLine(buf)
    case NotEnough => NotEnough
    case Invalid => Invalid
    case Value(line, consumed) =>
      var n := Btoi(line);
      if n.None? then Invalid else Value(n.value, consumed)
  }

  function ParseBulk(buf: Bytes): (p: Parsed<Resp<Bytes>>)
    ensures p.Value? ==> 2 <= p.consumed <= |buf|
  {
    match ParseLen(buf)
    case NotEnough => NotEnough
    case Invalid => Invalid
    case Value(len, consumed) =>
      if len < 0 then Value(NilBulk, consumed)
      else if |buf| < consumed + len + 2 then NotEnough
      else Value(Bulk(buf[consumed..consumed + len]), consumed + len + 2)
  }

  function Parse(buf: Bytes): (p: Parsed<Resp<Bytes>>)
    ensures p.Value? ==> 3 <= p.consumed <= |buf|
    decreases |buf|, 0
  {
    if buf == [] then NotEnough
    else if buf[0] == DOLLAR then Moved(ParseBulk(buf[1..]))
    else if buf[0] == STAR then Moved(ParseArray(buf[1..]))
    else if buf[0] == PLUS || buf[0] == COLON || buf[0] == MINUS then
      match ParseLine(buf[1..])
      case NotEnough => NotEnough
      case Invalid => Invalid
      case Value(s, consumed) =>
        Value(if buf[0] == PLUS then Simple(s) else if buf[0] == COLON then Integer(s) else Error(s), 1 + consumed)
    else Invalid
  }

  /** One byte was read before. */
  function Moved<V>(p: Parsed<V>): Parsed<V> {
    if p.Value? then Value(p.value, 1 + p.consumed) else p
  }

  function ParseArray(buf: Bytes): (p: Parsed<Resp<Bytes>>)
    ensures p.Value? ==> 2 <= p.consumed <= |buf|
    decreases |buf|, 1
  {
    match ParseLen(buf)
    case NotEnough => NotEnough
    case Invalid => Invalid
    case Value(len, consumed) =>
      if len < 0 then Value(NilArr, consumed)
      else
        match ParseAll(buf[consumed..], len)
        case NotEnough => NotEnough
        case Invalid => Invalid
        case Value(es, more) => Value(Arr(es), consumed + more)
  }

  /** `n` values one after another. */
  function ParseAll(buf: Bytes, n: nat): (p: Parsed<seq<Resp<Bytes>>>)
    ensures p.Value? ==> p.consumed <= |buf| && |p.value| == n
    decreases |buf|, 2
  {
    if n == 0 then Value([], 0)
    else
      match Parse(buf)
      case NotEnough => NotEnough
      case Invalid => Invalid
      case Value(v, consumed) =>
        match ParseAll(buf[consumed..], n - 1)
        case NotEnough => NotEnough
        case Invalid => Invalid
        case Value(es, more) => Value([v] + es, consumed + more)
  }

  // ----- more bytes do not change a verdict -----

  lemma {:induction false} FindLFExtended(buf: Bytes, more: Bytes)
    requires FindLF(buf) < |buf|
    ensures FindLF(buf + more) == FindLF(buf)
  {
    if buf[0] != LF {
      assert (buf + more)[1..] == buf[1..] + more;
      FindLFExtended(buf[1..], more);
    }
  }

  lemma LineExtended(buf: Bytes, more: Bytes)
    requires !ParseLine(buf).NotEnough?
    ensures ParseLine(buf + more) == ParseLine(buf)
  {
    FindLFExtended(buf, more);
    var i := FindLF(buf);
    assert i > 0 ==> (buf + more)[..i - 1] == buf[..i - 1];
  }

  lemma LenExtended(buf: Bytes, more: Bytes)
    requires !ParseLen(buf).NotEnough?
    ensures ParseLen(buf + more) == ParseLen(buf)
  {
    LineExtended(buf, more);
  }

  lemma BulkExtended(buf: Bytes, more: Bytes)
    requires !ParseBulk(buf).NotEnough?
    ensures ParseBulk(buf + more) == ParseBulk(buf)
  {
    LenExtended(buf, more);
    var p := ParseLen(buf);
    if p.Value? && p.value >= 0 {
      assert (buf + more)[p.consumed..p.consumed + p.value] == buf[p.consumed..p.consumed + p.value];
    }
  }

  /** An accepted value or a protocol error is unchanged by appending bytes. */
  lemma {:induction false} ParseExtended(buf: Bytes, more: Bytes)
    requires !Parse(buf).NotEnough?
    ensures Parse(buf + more) == Parse(buf)
    decreases |buf|, 0
  {
    var rest := buf[1..];
    assert (buf + more)[0] == buf[0] && (buf + more)[1..] == rest + more;
    if buf[0] == DOLLAR {
      BulkExtended(rest, more);
    } else if buf[0] == STAR {
      ArrayExtended(rest, more);
    } else if buf[0] == PLUS || buf[0] == COLON || buf[0] == MINUS {
      LineExtended(rest, more);
    }
  }

  lemma {:induction false} ArrayExtended(buf: Bytes, more: Bytes)
    requires !ParseArray(buf).NotEnough?
    ensures ParseArray(buf + more) == ParseArray(buf)
    decreases |buf|, 1
  {
    LenExtended(buf, more);
    var p := ParseLen(buf);
    if p.Value? && p.value >= 0 {
      assert (buf + more)[p.consumed..] == buf[p.consumed..] + more;
      AllExtended(buf[p.consumed..], more, p.value);
    }
  }

  lemma {:induction false} AllExtended(buf: Bytes, more: Bytes, n: nat)
    requires !ParseAll(buf, n).NotEnough?
    ensures ParseAll(buf + more, n) == ParseAll(buf, n)
    decreases |buf|, 2
  {
    hide Parse;
    if n > 0 {
      ParseExtended(buf, more);
      var p := Parse(buf);
      if p.Value? {
        assert (buf + more)[p.consumed..] == buf[p.consumed..] + more;
        AllExtended(buf[p.consumed..], more, n - 1);
      }
    }
  }

  // ----- round trip -----

  predicate NoLF(b: Bytes) {
    LF !in b
  }

  /** No line payload holds a line feed, and sizes fit in 63 bits. */
  predicate Encodable(r: Resp<Bytes>)
    decreases r
  {
    match r
    case Error(s) => NoLF(s)
    case Simple(s) => NoLF(s)
    case Integer(s) => NoLF(s)
    case Bulk(s) => |s| < MAX_LEN
    case Arr(es) => |es| < MAX_LEN && forall i :: 0 <= i < |es| ==> Encodable(es[i])
    case _ => true
  }

  lemma {:induction false} FindLFAfter(b: Bytes, rest: Bytes)
    requires NoLF(b)
    ensures FindLF(b + CRLF + rest) == |b| + 1
  {
    var buf := b + CRLF + rest;
    if b == [] {
      assert buf[0] == CR && buf[1..][0] == LF;
    } else {
      assert b[0] in b && buf[0] == b[0];
      assert buf[1..] == b[1..] + CRLF + rest;
      FindLFAfter(b[1..], rest);
    }
  }

  lemma LineParsed(b: Bytes, rest: Bytes)
    requires NoLF(b)
    ensures ParseLine(b + CRLF + rest) == Value(b, |b| + 2)
  {
    FindLFAfter(b, rest);
    assert (b + CRLF + rest)[..|b|] == b;
  }

  lemma LenParsed(n: nat, rest: Bytes)
    requires n < MAX_LEN
    ensures ParseLen(Decimal(n) + CRLF + rest) == Value(n, |Decimal(n)| + 2)
  {
    var ds := Decimal(n);
    assert forall i :: 0 <= i < |ds| ==> IsDigit(ds[i]) && ds[i] != LF;
    LineParsed(ds, rest);
    BtoiDecimal(n);
  }

  lemma NilParsed(rest: Bytes)
    ensures ParseLen([MINUS, 49, CR, LF] + rest) == Value(-1, 4)
  {
    BtoiMinusOne();
    LineParsed([MINUS, 49], rest);
    assert [MINUS, 49, CR, LF] + rest == [MINUS, 49] + CRLF + rest;
  }

  lemma BulkParsed(s: Bytes, rest: Bytes)
    requires |s| < MAX_LEN
    ensures ParseBulk(Decimal(|s|) + CRLF + s + CRLF + rest) == Value(Bulk(s), |Decimal(|s|)| + |s| + 4)
  {
    var ds := Decimal(|s|);
    var buf := ds + CRLF + s + CRLF + rest;
    assert buf == ds + CRLF + (s + CRLF + rest);
    LenParsed(|s|, s + CRLF + rest);
    assert buf[|ds| + 2..|ds| + 2 + |s|] == s;
  }

  lemma LineTrip(prefix: byte, s: Bytes, rest: Bytes)
    requires NoLF(s) && (prefix == PLUS || prefix == COLON || prefix == MINUS)
    ensures Parse(Line(prefix, s) + rest) ==
            Value(if prefix == PLUS then Simple(s) else if prefix == COLON then Integer(s) else Error(s),
                  |Line(prefix, s)|)
  {
    var buf := Line(prefix, s) + rest;
    assert buf[0] == prefix && buf[1..] == s + CRLF + rest;
    LineParsed(s, rest);
  }

  lemma NilTrip(rest: Bytes)
    ensures Parse(Encode(NilBulk) + rest) == Value(NilBulk, |Encode(NilBulk)|)
    ensures Parse(Encode(NilArr) + rest) == Value(NilArr, |Encode(NilArr)|)
  {
    var nil := [MINUS, 49, CR, LF];
    NilParsed(rest);
    assert (Encode(NilBulk) + rest)[1..] == nil + rest && (Encode(NilArr) + rest)[1..] == nil + rest;
  }

  lemma BulkTrip(s: Bytes, rest: Bytes)
    requires |s| < MAX_LEN
    ensures Parse(Encode(Bulk(s)) + rest) == Value(Bulk(s), |Encode(Bulk(s))|)
  {
    var buf := Encode(Bulk(s)) + rest;
    assert buf[0] == DOLLAR && buf[1..] == Decimal(|s|) + CRLF + s + CRLF + rest;
    hide ParseBulk, Decimal;
    BulkParsed(s, rest);
  }

  lemma ArrayParsed(es: seq<Resp<Bytes>>, body: Bytes, rest: Bytes)
    requires |es| < MAX_LEN && ParseAll(body + rest, |es|) == Value(es, |body|)
    ensures ParseArray(Decimal(|es|) + CRLF + (body + rest)) == Value(Arr(es), |Decimal(|es|)| + 2 + |body|)
  {
    hide ParseAll, ParseLen, Decimal;
    var ds := Decimal(|es|);
    assert (ds + CRLF + (body + rest))[|ds| + 2..] == body + rest;
    LenParsed(|es|, body + rest);
  }

  lemma ArrTrip(es: seq<Resp<Bytes>>, rest: Bytes)
    requires |es| < MAX_LEN && ParseAll(EncodeAll(es) + rest, |es|) == Value(es, |EncodeAll(es)|)
    ensures Parse(Encode(Arr(es)) + rest) == Value(Arr(es), |Encode(Arr(es))|)
  {
    hide ParseArray, ParseAll, Decimal, EncodeAll;
    var buf := Encode(Arr(es)) + rest;
    assert buf[0] == STAR && buf[1..] == Decimal(|es|) + CRLF + (EncodeAll(es) + rest);
    ArrayParsed(es, EncodeAll(es), rest);
  }

  /** Parsing an encoding followed by anything yields the value and takes exactly the
      encoding. */
  lemma {:induction false} RoundTrip(r: Resp<Bytes>, rest: Bytes)
    requires Encodable(r)
    ensures Parse(Encode(r) + rest) == Value(r, |Encode(r)|)
    decreases r, 0
  {
    hide Parse, ParseAll, EncodeAll;
    match r
    case Error(s) => LineTrip(MINUS, s, rest);
    case Simple(s) => LineTrip(PLUS, s, rest);
    case Integer(s) => LineTrip(COLON, s, rest);
    case NilBulk => NilTrip(rest);
    case NilArr => NilTrip(rest);
    case Bulk(s) => BulkTrip(s, rest);
    case Arr(es) =>
      AllTrip(es, rest);
      ArrTrip(es, rest);
  }

  lemma {:induction false} AllTrip(es: seq<Resp<Bytes>>, rest: Bytes)
    requires forall i :: 0 <= i < |es| ==> Encodable(es[i])
    ensures ParseAll(EncodeAll(es) + rest, |es|) == Value(es, |EncodeAll(es)|)
    decreases es, 1
  {
    hide Parse, Encode;
    if es != [] {
      var first, others := Encode(es[0]), EncodeAll(es[1..]);
      assert EncodeAll(es) + rest == first + (others + rest);
      RoundTrip(es[0], others + rest);
      assert (first + (others + rest))[|first|..] == others + rest;
      AllTrip(es[1..], rest);
      assert [es[0]] + es[1..] == es;
    }
  }

  /** A parsed value holds no line feed in a line, and its sizes fit. */
  lemma {:induction false} ParsedEncodable(buf: Bytes)
    requires Parse(buf).Value?
    ensures Encodable(Parse(buf).value)
    decreases |buf|, 0
  {
    var rest := buf[1..];
    if buf[0] == STAR {
      var p := ParseLen(rest);
      if p.value >= 0 {
        AllParsedEncodable(rest[p.consumed..], p.value);
      }
    }
  }

  lemma {:induction false} AllParsedEncodable(buf: Bytes, n: nat)
    requires ParseAll(buf, n).Value?
    ensures forall i :: 0 <= i < n ==> Encodable(ParseAll(buf, n).value[i])
    decreases |buf|, 2
  {
    hide Parse;
    if n > 0 {
      ParsedEncodable(buf);
      AllParsedEncodable(buf[Parse(buf).consumed..], n - 1);
    }
  }

  /** The codec returns a value unchanged exactly when no line in it holds a line feed and
      all its sizes are within the parser's bound. */
  lemma RoundTripExactly(r: Resp<Bytes>, rest: Bytes)
    ensures Parse(Encode(r) + rest) == Value(r, |Encode(r)|) <==> Encodable(r)
  {
    if Encodable(r) {
      RoundTrip(r, rest);
    } else if Parse(Encode(r) + rest).Value? {
      ParsedEncodable(Encode(r) + rest);
    }
  }

  /** Every proper prefix of an encoding needs more data. */
  lemma PrefixNeedsMore(r: Resp<Bytes>, k: nat)
    requires Encodable(r) && k < |Encode(r)|
    ensures Parse(Encode(r)[..k]).NotEnough?
  {
    var bs := Encode(r);
    assert bs[..k] + bs[k..] == bs && bs + [] == bs;
    RoundTrip(r, []);
    if !Parse(bs[..k]).NotEnough? {
      ParseExtended(bs[..k], bs[k..]);
    }
  }

  // ----- the bytes on the wire -----

  /** The form of a value that starts with this byte. */
  predicate FormOf(first: int, r: Resp<Bytes>) {
    && (first == 43 <==> r.Simple?) && (first == 45 <==> r.Error?) && (first == 58 <==> r.Integer?)
    && (first == 36 <==> r.NilBulk? || r.Bulk?) && (first == 42 <==> r.NilArr? || r.Arr?)
  }

  predicate EndsInCRLF(bs: Bytes) {
    |bs| >= 2 && bs[|bs| - 2] == 13 && bs[|bs| - 1] == 10
  }

  /** Every encoding starts with the byte of its form and ends in carriage return and line
      feed. */
  lemma {:induction false} WireFormat(r: Resp<Bytes>)
    ensures Encode(r) != [] && FormOf(Encode(r)[0] as int, r) && EndsInCRLF(Encode(r))
    decreases r, 0
  {
    if r.Arr? {
      var head := Line(STAR, Decimal(|r.elems|));
      assert EndsInCRLF(head) && head[0] == 42;
      AllEndInCRLF(r.elems, head);
    }
  }

  lemma {:induction false} AllEndInCRLF(es: seq<Resp<Bytes>>, head: Bytes)
    requires EndsInCRLF(head)
    ensures EndsInCRLF(head + EncodeAll(es))
    decreases es, 1
  {
    hide Encode;
    if es == [] {
      assert head + EncodeAll(es) == head;
    } else {
      var first := Encode(es[0]);
      WireFormat(es[0]);
      AllEndInCRLF(es[1..], head + first);
      assert head + EncodeAll(es) == head + first + EncodeAll(es[1..]);
    }
  }

  /** A value has the form its first byte says; other first bytes are protocol errors. */
  lemma WireParsed(buf: Bytes)
    requires buf != []
    ensures Parse(buf).Value? ==> FormOf(buf[0] as int, Parse(buf).value)
    ensures buf[0] !in {43, 45, 58, 36, 42} ==> Parse(buf).Invalid?
  {
  }

  /** Sizes are 64-bit signed decimal numbers: the largest is 2^63 - 1. */
  lemma NumbersFit(n: nat, bs: Bytes)
    ensures Btoi(Decimal(n)) == if n <= 9223372036854775807 then Some(n) else None
    ensures Btoi([43] + Decimal(n)) == Btoi(Decimal(n))
    ensures Btoi([45] + Decimal(n)) == if n <= 9223372036854775808 then Some(-(n as int)) else None
    ensures Btoi(bs).Some? ==> -9223372036854775808 <= Btoi(bs).value <= 9223372036854775807
  {
    DecimalValue(n);
    assert IsDigit(Decimal(n)[0]);
    assert ([45] + Decimal(n))[1..] == Decimal(n) && ([43] + Decimal(n))[1..] == Decimal(n);
  }

  /** The bulk string "foo" is "$3" and "foo", each with its line end; twelve is "12". */
  lemma BulkExample()
    ensures Encode(Bulk([102, 111, 111])) == [36, 51, 13, 10, 102, 111, 111, 13, 10]
    ensures Decimal(12) == [49, 50]
  {
  }

  lemma ArrayExample()
    ensures Encode(Arr([NilBulk, NilArr])) == [42, 50, 13, 10, 36, 45, 49, 13, 10, 42, 45, 49, 13, 10]
  {
    var es: seq<Resp<Bytes>> := [NilBulk, NilArr];
    assert es[1..] == [NilArr] && es[1..][1..] == [];
    assert EncodeAll([NilArr]) == Encode(NilArr);
    assert EncodeAll(es) == Encode(NilBulk) + Encode(NilArr);
  }
}

/** The zero-copy parser and the writing encoder, against the owning parser and the
    encoding function (src/protocol/stateless.rs, src/protocol/encoder.rs,
    src/protocol/resp.rs). */
module RespCodec {
  import opened ClusterState
  import opened Resp

  /** A half-open index range into a buffer. */
  datatype Span = Span(from: nat, to: nat)

  // ----- indexed values -----

  function Shift(s: Span, k: nat): Span {
    Span(s.from + k, s.to + k)
  }

  function Advance(r: Resp<Span>, k: nat): Resp<Span>
    decreases r
  {
    match r
    case Error(s) => Error(Shift(s, k))
    case Simple(s) => Simple(Shift(s, k))
    case Integer(s) => Integer(Shift(s, k))
    case NilBulk => NilBulk
    case Bulk(s) => Bulk(Shift(s, k))
    case NilArr => NilArr
    case Arr(es) => Arr(seq(|es|, i requires 0 <= i < |es| => Advance(es[i], k)))
  }

  predicate Fits(s: Span, n: nat) {
    s.from <= s.to <= n
  }

  /** All index ranges lie within the first `n` bytes. */
  predicate InBounds(r: Resp<Span>, n: nat)
    decreases r
  {
    match r
    case Error(s) => Fits(s, n)
    case Simple(s) => Fits(s, n)
    case Integer(s) => Fits(s, n)
    case Bulk(s) => Fits(s, n)
    case Arr(es) => forall i :: 0 <= i < |es| ==> InBounds(es[i], n)
    case _ => true
  }

  function Cut(s: Span, data: Bytes): Bytes
    requires Fits(s, |data|)
  {
    data[s.from..s.to]
  }

  /** The value the indices stand for. */
  function Slice(r: Resp<Span>, data: Bytes): Resp<Bytes>
    requires InBounds(r, |data|)
    decreases r
  {
    match r
    case Error(s) => Error(Cut(s, data))
    case Simple(s) => Simple(Cut(s, data))
    case Integer(s) => Integer(Cut(s, data))
    case NilBulk => NilBulk
    case Bulk(s) => Bulk(Cut(s, data))
    case NilArr => NilArr
    case Arr(es) => Arr(SliceAll(es, data))
  }

  function SliceAll(es: seq<Resp<Span>>, data: Bytes): (vs: seq<Resp<Bytes>>)
    requires forall i :: 0 <= i < |es| ==> InBounds(es[i], |data|)
    ensures |vs| == |es|
    decreases es, 0
  {
    seq(|es|, i requires 0 <= i < |es| => Slice(es[i], data))
  }

  lemma CutShifted(s: Span, data: Bytes, front: Bytes, back: Bytes)
    requires Fits(s, |data|)
    ensures Fits(Shift(s, |front|), |front + data + back|)
    ensures Cut(Shift(s, |front|), front + data + back) == Cut(s, data)
  {
    var k, all := |front|, front + data + back;
    assert forall i :: s.from <= i < s.to ==> all[i + k] == data[i];
    assert all[s.from + k..s.to + k] == data[s.from..s.to];
  }

  /** Advancing all indices matches bytes put in front; bytes behind do not matter. */
  lemma {:induction false} SliceAdvanced(r: Resp<Span>, data: Bytes, front: Bytes, back: Bytes)
    requires InBounds(r, |data|)
    ensures InBounds(Advance(r, |front|), |front| + |data|)
    ensures InBounds(Advance(r, |front|), |front + data + back|)
    ensures Slice(Advance(r, |front|), front + data + back) == Slice(r, data)
    decreases r
  {
    var k, all := |front|, front + data + back;
    if r.Error? || r.Simple? || r.Integer? {
      CutShifted(r.line, data, front, back);
    } else if r.Bulk? {
      CutShifted(r.body, data, front, back);
    } else if r.Arr? {
      forall i | 0 <= i < |r.elems|
        ensures InBounds(Advance(r.elems[i], k), k + |data|) && InBounds(Advance(r.elems[i], k), |all|)
        ensures Slice(Advance(r.elems[i], k), all) == Slice(r.elems[i], data)
      {
        SliceAdvanced(r.elems[i], data, front, back);
      }
    }
  }

  /** The indexed result says the same as the owning parser, with all indices inside the
      consumed bytes. */
  ghost predicate Agrees(p: Parsed<Resp<Span>>, q: Parsed<Resp<Bytes>>, buf: Bytes) {
    match p
    case NotEnough => q.NotEnough?
    case Invalid => q.Invalid?
    case Value(r, consumed) =>
      && q.Value? && q.consumed == consumed <= |buf|
      && InBounds(r, consumed) && Slice(r, buf[..consumed]) == q.value
  }

  lemma {:induction false} SliceLonger(r: Resp<Span>, data: Bytes, back: Bytes)
    requires InBounds(r, |data|)
    ensures InBounds(r, |data + back|) && Slice(r, data + back) == Slice(r, data)
    decreases r
  {
    if r.Error? || r.Simple? || r.Integer? {
      assert Cut(r.line, data + back) == Cut(r.line, data);
    } else if r.Bulk? {
      assert Cut(r.body, data + back) == Cut(r.body, data);
    } else if r.Arr? {
      forall i | 0 <= i < |r.elems|
        ensures InBounds(r.elems[i], |data + back|) && Slice(r.elems[i], data + back) == Slice(r.elems[i], data)
      {
        SliceLonger(r.elems[i], data, back);
      }
    }
  }

  // ----- the zero-copy parser -----

  method ParseLineIndex(buf: Bytes) returns (p: Parsed<Span>)
    ensures p.NotEnough? <==> ParseLine(buf).NotEnough?
    ensures p.Invalid? <==> ParseLine(buf).Invalid?
    ensures p.Value? ==>
              && p.consumed == ParseLine(buf).consumed && Fits(p.value, p.consumed - 2)
              && Cut(p.value, buf) == ParseLine(buf).value
  {
    var lfIndex := FindLF(buf);
    if lfIndex == |buf| {
      return NotEnough;
    }
    if lfIndex == 0 {
      return Invalid;
    }
    return Value(Span(0, lfIndex + 1 - 2), lfIndex + 1);
  }

  method ParseLenIndex(buf: Bytes) returns (p: Parsed<int>)
    ensures p == ParseLen(buf)
  {
    var line := ParseLineIndex(buf);
    if line.NotEnough? {
      return NotEnough;
    }
    if line.Invalid? {
      return Invalid;
    }
    var len := Btoi(buf[line.value.from..line.value.to]);
    if len.None? {
      return Invalid;
    }
    return Value(len.value, line.consumed);
  }

  method ParseBulkIndex(buf: Bytes) returns (p: Parsed<Resp<Span>>)
    ensures Agrees(p, ParseBulk(buf), buf)
  {
    var len := ParseLenIndex(buf);
    if len.NotEnough? {
      return NotEnough;
    }
    if len.Invalid? {
      return Invalid;
    }
    if len.value < 0 {
      return Value(NilBulk, len.consumed);
    }
    var from, to := len.consumed, len.consumed + len.value;
    if |buf| < to + 2 {
      return NotEnough;
    }
    assert buf[..to + 2][from..to] == buf[from..to];
    return Value(Bulk(Span(from, to)), to + 2);
  }

  /** One byte was read before: its result agrees with the whole buffer. */
  lemma AgreesMoved(p: Parsed<Resp<Span>>, q: Parsed<Resp<Bytes>>, buf: Bytes)
    requires buf != [] && Agrees(p, q, buf[1..])
    ensures Agrees(if p.Value? then Value(Advance(p.value, 1), 1 + p.consumed) else p, Moved(q), buf)
  {
    if p.Value? {
      var c := p.consumed;
      SliceAdvanced(p.value, buf[1..][..c], buf[..1], []);
      assert buf[..1] + buf[1..][..c] + [] == buf[..1 + c];
    }
  }

  method ParseSimpleIndex(buf: Bytes) returns (p: Parsed<Resp<Span>>)
    requires buf != [] && (buf[0] == PLUS || buf[0] == COLON || buf[0] == MINUS)
    ensures Agrees(p, Parse(buf), buf)
  {
    var line := ParseLineIndex(buf[1..]);
    if line.NotEnough? {
      return NotEnough;
    }
    if line.Invalid? {
      return Invalid;
    }
    var s, c := Shift(line.value, 1), 1 + line.consumed;
    assert Cut(s, buf[..c]) == Cut(line.value, buf[1..]);
    return Value(if buf[0] == PLUS then Simple(s) else if buf[0] == COLON then Integer(s) else Error(s), c);
  }

  method ParseIndex(buf: Bytes) returns (p: Parsed<Resp<Span>>)
    ensures Agrees(p, Parse(buf), buf)
    decreases |buf|, 0
  {
    if buf == [] {
      return NotEnough;
    }
    if buf[0] == DOLLAR || buf[0] == STAR {
      ghost var q := if buf[0] == DOLLAR then ParseBulk(buf[1..]) else ParseArray(buf[1..]);
      assert Parse(buf) == Moved(q);
      hide Parse, ParseBulk, ParseArray, Agrees;
      if buf[0] == DOLLAR {
        p := ParseBulkIndex(buf[1..]);
      } else {
        p := ParseArrayIndex(buf[1..]);
      }
      AgreesMoved(p, q, buf);
      if p.Value? {
        p := Value(Advance(p.value, 1), 1 + p.consumed);
      }
    } else if buf[0] == PLUS || buf[0] == COLON || buf[0] == MINUS {
      hide Parse;
      p := ParseSimpleIndex(buf);
    } else {
      p := Invalid;
    }
  }

  /** Values already parsed, then the rest. */
  function Then(vs: seq<Resp<Bytes>>, taken: nat, p: Parsed<seq<Resp<Bytes>>>): Parsed<seq<Resp<Bytes>>> {
    if p.Value? then Value(vs + p.value, taken + p.consumed) else p
  }

  /** After some elements: what the indices stand for, and what is left to parse. */
  ghost predicate Parsing(buf: Bytes, start: nat, n: nat, list: seq<Resp<Span>>, consumed: nat) {
    && start <= consumed <= |buf| && |list| <= n
    && (forall i :: 0 <= i < |list| ==> InBounds(list[i], consumed))
    && ParseAll(buf[start..], n) ==
       Then(SliceAll(list, buf[..consumed]), consumed - start, ParseAll(buf[consumed..], n - |list|))
  }

  lemma ParsingNone(buf: Bytes, start: nat, n: nat)
    requires start <= |buf|
    ensures Parsing(buf, start, n, [], start)
  {
    var p := ParseAll(buf[start..], n);
    assert p.Value? ==> [] + p.value == p.value;
  }

  lemma ThenMore(vs: seq<Resp<Bytes>>, taken: nat, v: Resp<Bytes>, c: nat, p: Parsed<seq<Resp<Bytes>>>)
    ensures Then(vs, taken, Then([v], c, p)) == Then(vs + [v], taken + c, p)
  {
    assert p.Value? ==> vs + ([v] + p.value) == vs + [v] + p.value;
  }

  lemma AllUnfold(buf: Bytes, n: nat)
    requires n > 0 && Parse(buf).Value?
    ensures ParseAll(buf, n) ==
            Then([Parse(buf).value], Parse(buf).consumed, ParseAll(buf[Parse(buf).consumed..], n - 1))
  {
    hide Parse;
  }

  /** Slices of the elements so far with one more element. */
  lemma SliceMore(buf: Bytes, list: seq<Resp<Span>>, consumed: nat, v: Resp<Span>, c: nat)
    requires consumed + c <= |buf| && forall i :: 0 <= i < |list| ==> InBounds(list[i], consumed)
    requires InBounds(v, c)
    ensures forall i :: 0 <= i < |list| ==> InBounds(list[i], consumed + c)
    ensures InBounds(Advance(v, consumed), consumed + c)
    ensures SliceAll(list + [Advance(v, consumed)], buf[..consumed + c]) ==
            SliceAll(list, buf[..consumed]) + [Slice(v, buf[consumed..][..c])]
  {
    var data, next := buf[..consumed], buf[consumed..][..c];
    assert buf[..consumed + c] == data + next && data + next + [] == data + next;
    SliceAdvanced(v, next, data, []);
    forall i | 0 <= i < |list|
      ensures InBounds(list[i], |data + next|) && Slice(list[i], data + next) == Slice(list[i], data)
    {
      SliceLonger(list[i], data, next);
    }
  }

  /** Taking an element moves on within the buffer. */
  lemma ParsingOne(buf: Bytes, start: nat, n: nat, list: seq<Resp<Span>>, consumed: nat, v: Resp<Span>, c: nat)
    requires Parsing(buf, start, n, list, consumed) && |list| < n
    requires Agrees(Value(v, c), Parse(buf[consumed..]), buf[consumed..])
    ensures Parsing(buf, start, n, list + [Advance(v, consumed)], consumed + c) && consumed + c <= |buf|
  {
    hide ParseAll, Parse, Slice, SliceAll, Advance, InBounds, Then;
    var left, rest := n - |list|, buf[consumed..];
    var vs, more := SliceAll(list, buf[..consumed]), ParseAll(rest[c..], left - 1);
    assert ParseAll(buf[start..], n) == Then(vs, consumed - start, ParseAll(rest, left));
    AllUnfold(rest, left);
    SliceMore(buf, list, consumed, v, c);
    ThenMore(vs, consumed - start, Slice(v, rest[..c]), c, more);
    assert rest[c..] == buf[consumed + c..];
  }

  method ParseElements(buf: Bytes, start: nat, size: nat) returns (p: Parsed<Resp<Span>>)
    requires start > 0 && start <= |buf| && ParseLen(buf) == Value(size, start)
    ensures Agrees(p, ParseArray(buf), buf)
    decreases |buf|, 1
  {
    hide *;
    var consumed, list := start, [];
    ParsingNone(buf, start, size);
    while |list| < size
      invariant |list| <= size && start <= consumed <= |buf| && Parsing(buf, start, size, list, consumed)
      decreases size - |list|
    {
      var next := ParseIndex(buf[consumed..]);
      if !next.Value? {
        StopsHere(buf, start, size, list, consumed, next);
        return next;
      }
      ParsingOne(buf, start, size, list, consumed, next.value, next.consumed);
      list := list + [Advance(next.value, consumed)];
      consumed := consumed + next.consumed;
    }
    AllThere(buf, start, size, list, consumed);
    return Value(Arr(list), consumed);
  }

  method ParseArrayIndex(buf: Bytes) returns (p: Parsed<Resp<Span>>)
    ensures Agrees(p, ParseArray(buf), buf)
    decreases |buf|, 2
  {
    var len := ParseLenIndex(buf);
    if len.NotEnough? {
      return NotEnough;
    }
    if len.Invalid? {
      return Invalid;
    }
    if len.value < 0 {
      return Value(NilArr, len.consumed);
    }
    p := ParseElements(buf, len.consumed, len.value);
  }

  /** An element that cannot be parsed decides the array. */
  lemma StopsHere(buf: Bytes, start: nat, n: nat, list: seq<Resp<Span>>, consumed: nat, next: Parsed<Resp<Span>>)
    requires ParseLen(buf) == Value(n, start) && Parsing(buf, start, n, list, consumed) && |list| < n && !next.Value?
    requires Agrees(next, Parse(buf[consumed..]), buf[consumed..])
    ensures Agrees(next, ParseArray(buf), buf)
  {
    hide Parse;
  }

  lemma AllThere(buf: Bytes, start: nat, n: nat, list: seq<Resp<Span>>, consumed: nat)
    requires ParseLen(buf) == Value(n, start) && Parsing(buf, start, n, list, consumed) && |list| == n
    ensures Agrees(Value(Arr(list), consumed), ParseArray(buf), buf)
  {
    var vs := SliceAll(list, buf[..consumed]);
    assert vs + [] == vs;
    assert ParseAll(buf[start..], n) == Value(vs, consumed - start);
    hide ParseAll, ParseLen;
  }

  // ----- an indexed packet -----

  /** Takes one value off the front of the buffer; its indices are good for the bytes
      taken. */
  method ParseIndexed(buf: Bytes) returns (p: Parsed<Resp<Span>>, data: Bytes, rest: Bytes)
    ensures p.NotEnough? == Parse(buf).NotEnough? && p.Invalid? == Parse(buf).Invalid?
    ensures !p.Value? ==> data == [] && rest == buf
    ensures p.Value? ==>
              && data + rest == buf && |data| == p.consumed == Parse(buf).consumed
              && InBounds(p.value, |data|) && Slice(p.value, data) == Parse(buf).value
  {
    p := ParseIndex(buf);
    data, rest := [], buf;
    if p.Value? {
      data, rest := buf[..p.consumed], buf[p.consumed..];
    }
  }

  /** Element `i` if the value is an array and the element a bulk string. */
  function ArrayElement(r: Resp<Span>, data: Bytes, i: nat): Option<Bytes>
    requires InBounds(r, |data|)
  {
    if r.Arr? && i < |r.elems| && r.elems[i].Bulk? then
      assert InBounds(r.elems[i], |data|);
      Some(Cut(r.elems[i].body, data))
    else None
  }

  /** The accessor slices within bounds and agrees with the value. */
  lemma ArrayElementIs(r: Resp<Span>, data: Bytes, i: nat)
    requires InBounds(r, |data|)
    ensures var v := Slice(r, data);
            ArrayElement(r, data, i) ==
            if v.Arr? && i < |v.elems| && v.elems[i].Bulk? then Some(v.elems[i].body) else None
  {
    if r.Arr? && i < |r.elems| {
      assert Slice(r, data).elems[i] == Slice(r.elems[i], data);
    }
  }

  // ----- the writing encoder -----

  class Writer {
    var out: Bytes

    constructor ()
      ensures out == []
    {
      out := [];
    }

    method Write(b: Bytes) returns (n: nat)
      modifies this
      ensures out == old(out) + b && n == |b|
    {
      out := out + b;
      n := |b|;
    }

    method WriteElement(prefix: byte, b: Bytes) returns (n: nat)
      modifies this
      ensures out == old(out) + Line(prefix, b) && n == |Line(prefix, b)|
    {
      var n1 := Write([prefix]);
      var n2 := Write(b);
      var n3 := Write(CRLF);
      assert old(out) + [prefix] + b + CRLF == old(out) + Line(prefix, b);
      n := n1 + n2 + n3;
    }

    /** Appends the encoding and returns its length. */
    method EncodeResp(r: Resp<Bytes>) returns (n: nat)
      modifies this
      ensures out == old(out) + Encode(r) && n == |Encode(r)|
      decreases r, 0
    {
      match r
      case Error(s) => n := WriteElement(MINUS, s);
      case Simple(s) => n := WriteElement(PLUS, s);
      case Integer(s) => n := WriteElement(COLON, s);
      case NilBulk => n := Write([DOLLAR, MINUS, 49, CR, LF]);
      case Bulk(s) => n := EncodeBulk(s);
      case NilArr => n := Write([STAR, MINUS, 49, CR, LF]);
      case Arr(es) => n := EncodeArray(es);
    }

    method EncodeBulk(s: Bytes) returns (n: nat)
      modifies this
      ensures out == old(out) + Encode(Bulk(s)) && n == |Encode(Bulk(s))|
    {
      var head := Line(DOLLAR, Decimal(|s|));
      var n1 := WriteElement(DOLLAR, Decimal(|s|));
      var n2 := Write(s);
      var n3 := Write(CRLF);
      assert old(out) + head + s + CRLF == old(out) + (head + s + CRLF);
      n := n1 + n2 + n3;
    }

    method EncodeArray(es: seq<Resp<Bytes>>) returns (n: nat)
      modifies this
      ensures out == old(out) + Encode(Arr(es)) && n == |Encode(Arr(es))|
      decreases es, 1
    {
      n := WriteElement(STAR, Decimal(|es|));
      ghost var head := Line(STAR, Decimal(|es|));
      var i := 0;
      while i < |es|
        invariant 0 <= i <= |es|
        invariant out == old(out) + (head + EncodeAll(es[..i])) && n == |head + EncodeAll(es[..i])|
      {
        hide Encode, EncodeAll, Line, Decimal;
        var l := EncodeResp(es[i]);
        EncodeAllSnoc(es, i);
        assert old(out) + (head + EncodeAll(es[..i])) + Encode(es[i]) ==
               old(out) + (head + (EncodeAll(es[..i]) + Encode(es[i])));
        n := n + l;
        i := i + 1;
      }
      assert es[..i] == es;
    }
  }

  lemma {:induction false} EncodeAllSnoc(es: seq<Resp<Bytes>>, i: nat)
    requires i < |es|
    ensures EncodeAll(es[..i + 1]) == EncodeAll(es[..i]) + Encode(es[i])
    decreases i
  {
    hide Encode;
    if i == 0 {
      assert es[..1][1..] == [] && es[..0] == [];
    } else {
      EncodeAllSnoc(es[1..], i - 1);
      assert es[..i + 1][1..] == es[1..][..i] && es[..i][1..] == es[1..][..i - 1];
      assert Encode(es[0]) + (EncodeAll(es[..i][1..]) + Encode(es[i])) == EncodeAll(es[..i]) + Encode(es[i]);
    }
  }
}

/** The multi-packet codec of a client connection: requests tell, through one shared
    cell, how many replies belong together (src/protocol/packet.rs). */
module Packet {
  import opened ClusterState
  import opened Resp

  /** One reply, or a batch of `n`. */
  datatype Shape = One | Many(n: nat)

  datatype Packet = Single(reply: Resp<Bytes>) | Multi(replies: seq<Resp<Bytes>>)

  function ShapeOf(p: Packet): Shape {
    if p.Single? then One else Many(|p.replies|)
  }

  function Replies(p: Packet): seq<Resp<Bytes>> {
    if p.Single? then [p.reply] else p.replies
  }

  function AllReplies(ps: seq<Packet>): seq<Resp<Bytes>> {
    if ps == [] then [] else AllReplies(ps[..|ps| - 1]) + Replies(ps[|ps| - 1])
  }

  function Shapes(ps: seq<Packet>): (shapes: seq<Shape>)
    ensures |shapes| == |ps| && forall i :: 0 <= i < |ps| ==> shapes[i] == ShapeOf(ps[i])
  {
    seq(|ps|, i requires 0 <= i < |ps| => ShapeOf(ps[i]))
  }

  /** How a shape is stored in the cell; 0 is empty. */
  function Code(s: Shape): nat {
    if s.One? then 1 else s.n + 2
  }

  function Pending(cell: nat, curr: Option<Shape>): seq<Shape> {
    (if curr.Some? then [curr.value] else []) +
    (if cell == 0 then [] else if cell == 1 then [One] else [Many(cell - 2)])
  }

  // ----- what holds between calls -----

  /** Requests accepted are the packets returned, then the current hint, then the cell. */
  ghost predicate Fifo(cell: nat, curr: Option<Shape>, accepted: seq<Shape>, decoded: seq<Packet>) {
    accepted == Shapes(decoded) + Pending(cell, curr)
  }

  /** Replies taken off the stream are those in packets, then those still collected. */
  ghost predicate Collected(curr: Option<Shape>, buf: seq<Resp<Bytes>>, decoded: seq<Packet>, taken: seq<Resp<Bytes>>) {
    && taken == AllReplies(decoded) + buf
    && (buf != [] ==> curr.Some? && curr.value.Many? && |buf| < curr.value.n)
  }

  /** The replies taken are the first ones on the stream, and `input` is what follows. */
  ghost predicate Streamed(received: Bytes, input: Bytes, taken: seq<Resp<Bytes>>) {
    && |input| <= |received| && received[|received| - |input|..] == input
    && ParseAll(received, |taken|) == Value(taken, |received| - |input|)
  }

  // ----- steps on the stream -----

  lemma {:induction false} AllSnoc(buf: Bytes, n: nat, vs: seq<Resp<Bytes>>, consumed: nat)
    requires ParseAll(buf, n) == Value(vs, consumed) && Parse(buf[consumed..]).Value?
    ensures ParseAll(buf, n + 1) ==
            Value(vs + [Parse(buf[consumed..]).value], consumed + Parse(buf[consumed..]).consumed)
    decreases n
  {
    hide Parse;
    if n == 0 {
      assert buf[0..] == buf && vs == [];
      assert ParseAll(buf[Parse(buf).consumed..], 0) == Value([], 0);
      assert [Parse(buf).value] + [] == vs + [Parse(buf).value];
    } else {
      var first := Parse(buf);
      var rest := buf[first.consumed..];
      assert vs == [first.value] + vs[1..];
      assert rest[consumed - first.consumed..] == buf[consumed..];
      AllSnoc(rest, n - 1, vs[1..], consumed - first.consumed);
      assert [first.value] + (vs[1..] + [Parse(buf[consumed..]).value]) == vs + [Parse(buf[consumed..]).value];
    }
  }

  /** One more reply is taken from the input. */
  lemma TakeOne(received: Bytes, input: Bytes, taken: seq<Resp<Bytes>>)
    requires Streamed(received, input, taken) && Parse(input).Value?
    ensures Streamed(received, input[Parse(input).consumed..], taken + [Parse(input).value])
  {
    hide Parse, ParseAll;
    AllSnoc(received, |taken|, taken, |received| - |input|);
  }

  /** More bytes arrive. */
  lemma MoreInput(received: Bytes, input: Bytes, taken: seq<Resp<Bytes>>, bytes: Bytes)
    requires Streamed(received, input, taken)
    ensures Streamed(received + bytes, input + bytes, taken)
  {
    hide ParseAll;
    AllExtended(received, bytes, |taken|);
  }

  // ----- what the stream holds -----

  lemma {:induction false} EncodeAllSplit(rs: seq<Resp<Bytes>>, k: nat)
    requires k <= |rs|
    ensures EncodeAll(rs) == EncodeAll(rs[..k]) + EncodeAll(rs[k..])
    decreases k
  {
    hide Encode;
    if k > 0 {
      var first, a, b := Encode(rs[0]), EncodeAll(rs[1..][..k - 1]), EncodeAll(rs[k..]);
      EncodeAllSplit(rs[1..], k - 1);
      assert rs[..k][1..] == rs[1..][..k - 1] && rs[1..][k - 1..] == rs[k..];
      assert EncodeAll(rs) == first + (a + b) && EncodeAll(rs[..k]) == first + a;
      hide EncodeAll;
      assert first + (a + b) == first + a + b;
    } else {
      assert rs[..0] == [] && rs[0..] == rs && [] + EncodeAll(rs) == EncodeAll(rs);
    }
  }

  /** A buffer used up by `n` values has no more. */
  lemma {:induction false} NoMore(buf: Bytes, n: nat, vs: seq<Resp<Bytes>>, m: nat)
    requires ParseAll(buf, n) == Value(vs, |buf|) && n < m
    ensures ParseAll(buf, m).NotEnough?
    decreases n
  {
    if n > 0 {
      hide Parse;
      NoMore(buf[Parse(buf).consumed..], n - 1, vs[1..], m - 1);
    }
  }

  /** If the bytes so far are a beginning of the encoded replies `rs`, however they were
      cut into chunks, the replies taken are the first ones of `rs`. */
  lemma TakenInOrder(rs: seq<Resp<Bytes>>, received: Bytes, input: Bytes, taken: seq<Resp<Bytes>>)
    requires forall i :: 0 <= i < |rs| ==> Encodable(rs[i])
    requires received <= EncodeAll(rs) && Streamed(received, input, taken)
    ensures taken <= rs
  {
    hide ParseAll, EncodeAll, Encodable;
    var all, k := EncodeAll(rs), |taken|;
    assert all == received + all[|received|..];
    AllExtended(received, all[|received|..], k);
    if k <= |rs| {
      EncodeAllSplit(rs, k);
      AllTrip(rs[..k], EncodeAll(rs[k..]));
    } else {
      AllTrip(rs, []);
      assert all + [] == all;
      NoMore(all, |rs|, rs, k);
    }
  }

  // ----- the codec -----

  datatype Decoded = Pkt(packet: Packet) | Wait | BadProtocol

  class Codec {
    /** The cell shared by encoder and decoder. */
    var cell: nat
    /** The decoder's current hint and the replies collected for it. */
    var curr: Option<Shape>
    var buf: seq<Resp<Bytes>>
    /** Bytes that arrived and were not decoded yet. */
    var input: Bytes

    ghost var accepted: seq<Shape>
    ghost var decoded: seq<Packet>
    ghost var received: Bytes
    ghost var taken: seq<Resp<Bytes>>

    ghost predicate Valid()
      reads this
    {
      && Fifo(cell, curr, accepted, decoded) && Collected(curr, buf, decoded, taken)
      && Streamed(received, input, taken)
    }

    constructor ()
      ensures Valid() && accepted == [] && decoded == [] && received == []
    {
      cell, curr, buf, input := 0, None, [], [];
      accepted, decoded, received, taken := [], [], [], [];
    }

    /** A request is accepted only when the cell is empty. */
    method Encode(shape: Shape) returns (ok: bool)
      requires Valid()
      modifies this
      ensures Valid()
      ensures ok == (old(cell) == 0)
      ensures accepted == (if ok then old(accepted) + [shape] else old(accepted)) && (!ok ==> unchanged(this))
      ensures decoded == old(decoded) && received == old(received) && taken == old(taken)
    {
      ok := cell == 0;
      if ok {
        cell := Code(shape);
        accepted := accepted + [shape];
      }
    }

    /** Reply bytes arrive, cut anywhere. */
    method Feed(bytes: Bytes)
      requires Valid()
      modifies this`input, this`received
      ensures Valid() && received == old(received) + bytes
    {
      MoreInput(received, input, taken, bytes);
      input, received := input + bytes, received + bytes;
    }

    /** Empties the cell into the current hint, if there is none. */
    method NextHint()
      requires Valid()
      modifies this`cell, this`curr
      ensures Valid()
      ensures curr.None? ==> old(curr).None? && cell == old(cell) == 0
    {
      if curr.None? {
        var n := cell;
        cell := 0;
        if n == 1 {
          curr := Some(One);
        } else if n >= 2 {
          curr := Some(Many(n - 2));
        }
      }
    }

    /** Takes replies until the packet of the current hint is complete. */
    method Collect() returns (d: Decoded)
      requires Valid() && curr.Some? && curr.value != Many(0)
      modifies this
      ensures Valid() && accepted == old(accepted) && received == old(received)
      ensures decoded == if d.Pkt? then old(decoded) + [d.packet] else old(decoded)
      ensures d.Wait? ==> Parse(input).NotEnough?
      ensures d.BadProtocol? ==> Parse(input).Invalid?
    {
      hide Parse, Streamed, Fifo, AllReplies, Collected;
      var hint := curr.value;
      while true
        invariant Valid() && curr == Some(hint)
        invariant accepted == old(accepted) && received == old(received) && decoded == old(decoded)
        decreases |input|
      {
        var p := Parse(input);
        if p.Invalid? {
          return BadProtocol;
        }
        if p.NotEnough? {
          return Wait;
        }
        TakeOne(received, input, taken);
        CollectOne(hint, buf, decoded, taken, p.value);
        input, taken := input[p.consumed..], taken + [p.value];
        if hint.One? {
          var packet := Single(p.value);
          ReturnPacket(cell, accepted, decoded, packet);
          curr, decoded := None, decoded + [packet];
          return Pkt(packet);
        }
        buf := buf + [p.value];
        if |buf| == hint.n {
          var packet := Multi(buf);
          ReturnPacket(cell, accepted, decoded, packet);
          curr, decoded, buf := None, decoded + [packet], [];
          return Pkt(packet);
        }
      }
    }

    /** Returns the next packet once all its replies are there. It has the shape of the
        next accepted request and carries the next replies. */
    method Decode() returns (d: Decoded)
      requires Valid()
      modifies this
      ensures Valid() && accepted == old(accepted) && received == old(received)
      ensures decoded == if d.Pkt? then old(decoded) + [d.packet] else old(decoded)
      ensures d.Wait? ==> Parse(input).NotEnough? || (curr.None? && cell == 0)
      ensures d.BadProtocol? ==> Parse(input).Invalid?
    {
      NextHint();
      if curr.None? {
        return Wait;
      }
      if curr.value == Many(0) {
        ReturnPacket(cell, accepted, decoded, Multi([]));
        curr, decoded := None, decoded + [Multi([])];
        return Pkt(Multi([]));
      }
      d := Collect();
    }

    /** One event: the packets it returns and the shapes it makes the codec accept. */
    method Step(e: Event) returns (packets: seq<Packet>, shapes: seq<Shape>)
      requires Valid()
      modifies this
      ensures Valid() && received == old(received) + Brought(e)
      ensures accepted == old(accepted) + shapes && decoded == old(decoded) + packets
      ensures shapes == if e.Request? && old(cell) == 0 then [e.shape] else []
      ensures e.Poll? || packets == []
    {
      packets, shapes := [], [];
      match e
      case Request(shape) =>
        var ok := Encode(shape);
        if ok {
          shapes := [shape];
        }
      case Arrive(bytes) => Feed(bytes);
      case Poll =>
        var d := Decode();
        if d.Pkt? {
          packets := [d.packet];
        }
    }

    /** Every interleaving of requests, arriving chunks and decode calls keeps the order:
        the bytes received are those of the arrivals, and the packets returned join those
        returned before. */
    method Run(events: seq<Event>) returns (packets: seq<Packet>, shapes: seq<Shape>)
      requires Valid()
      modifies this
      ensures Valid() && received == old(received) + Arrived(events)
      ensures accepted == old(accepted) + shapes && decoded == old(decoded) + packets
    {
      hide *;
      packets, shapes := [], [];
      var i := 0;
      ArrivedNone();
      assert events[..0] == [];
      while i < |events|
        invariant 0 <= i <= |events| && Valid() && received == old(received) + Arrived(events[..i])
        invariant accepted == old(accepted) + shapes && decoded == old(decoded) + packets
      {
        ArrivedNext(events, i);
        var more, others := Step(events[i]);
        packets, shapes := packets + more, shapes + others;
        i := i + 1;
      }
      assert events[..i] == events;
    }
  }

  datatype Event = Request(shape: Shape) | Arrive(bytes: Bytes) | Poll

  function Brought(e: Event): Bytes {
    if e.Arrive? then e.bytes else []
  }

  /** All bytes that arrive in a run. */
  function Arrived(events: seq<Event>): Bytes {
    if events == [] then [] else Arrived(events[..|events| - 1]) + Brought(events[|events| - 1])
  }

  lemma ArrivedNone()
    ensures Arrived([]) == []
  {
  }

  lemma ArrivedNext(events: seq<Event>, i: nat)
    requires i < |events|
    ensures Arrived(events[..i + 1]) == Arrived(events[..i]) + Brought(events[i])
  {
    assert events[..i + 1][..i] == events[..i];
  }

  /** A returned packet takes the place of its hint. */
  lemma ReturnPacket(cell: nat, accepted: seq<Shape>, decoded: seq<Packet>, packet: Packet)
    requires Fifo(cell, Some(ShapeOf(packet)), accepted, decoded)
    ensures Fifo(cell, None, accepted, decoded + [packet])
    ensures AllReplies(decoded + [packet]) == AllReplies(decoded) + Replies(packet)
  {
    var now := decoded + [packet];
    assert now[..|decoded|] == decoded;
    assert Shapes(now) == Shapes(decoded) + [ShapeOf(packet)];
    assert Pending(cell, Some(ShapeOf(packet))) == [ShapeOf(packet)] + Pending(cell, None);
  }

  /** One more reply: it completes a packet, or waits with the others. */
  lemma CollectOne(hint: Shape, buf: seq<Resp<Bytes>>, decoded: seq<Packet>, taken: seq<Resp<Bytes>>, v: Resp<Bytes>)
    requires Collected(Some(hint), buf, decoded, taken) && hint != Many(0)
    ensures hint.One? ==> buf == [] && Collected(None, [], decoded + [Single(v)], taken + [v])
    ensures hint.Many? && |buf| + 1 == hint.n ==> Collected(None, [], decoded + [Multi(buf + [v])], taken + [v])
    ensures hint.Many? && |buf| + 1 != hint.n ==> Collected(Some(hint), buf + [v], decoded, taken + [v])
  {
    var packet := if hint.One? then Single(v) else Multi(buf + [v]);
    assert (decoded + [packet])[..|decoded|] == decoded;
    assert AllReplies(decoded) + buf + [v] == AllReplies(decoded) + (buf + [v]);
  }

  lemma {:induction false} FirstReplies(ps: seq<Packet>, k: nat)
    requires k <= |ps|
    ensures AllReplies(ps[..k]) <= AllReplies(ps)
    decreases |ps|
  {
    if k < |ps| {
      FirstReplies(ps[..|ps| - 1], k);
      assert ps[..|ps| - 1][..k] == ps[..k];
    } else {
      assert ps[..k] == ps;
    }
  }

  /** The k-th packet returned has the shape of the k-th request accepted; requests
      without a packet yet are the current hint and the cell. */
  lemma ShapesInOrder(cell: nat, curr: Option<Shape>, accepted: seq<Shape>, decoded: seq<Packet>)
    requires Fifo(cell, curr, accepted, decoded)
    ensures |decoded| <= |accepted| <= |decoded| + 2
    ensures forall k :: 0 <= k < |decoded| ==> ShapeOf(decoded[k]) == accepted[k]
    ensures accepted[|decoded|..] == Pending(cell, curr)
  {
    assert forall k :: 0 <= k < |decoded| ==> accepted[k] == Shapes(decoded)[k];
  }

  /** The k-th packet carries exactly the replies after those of the packets before. */
  lemma RepliesInOrder(rs: seq<Resp<Bytes>>, received: Bytes, input: Bytes, taken: seq<Resp<Bytes>>,
                       curr: Option<Shape>, buf: seq<Resp<Bytes>>, decoded: seq<Packet>, k: nat)
    requires Streamed(received, input, taken) && Collected(curr, buf, decoded, taken) && k < |decoded|
    requires received <= EncodeAll(rs) && forall i :: 0 <= i < |rs| ==> Encodable(rs[i])
    ensures AllReplies(decoded[..k]) + Replies(decoded[k]) <= rs
  {
    hide Streamed, Encodable, EncodeAll;
    TakenInOrder(rs, received, input, taken);
    assert AllReplies(decoded[..k + 1]) == AllReplies(decoded[..k]) + Replies(decoded[k]) by {
      assert decoded[..k + 1][..k] == decoded[..k];
    }
    FirstReplies(decoded, k + 1);
    hide AllReplies;
    assert AllReplies(decoded) <= taken;
  }

  /** In every state a codec can be in, packets come back in request order and carry the
      replies in the order sent. */
  lemma PacketsInOrder(codec: Codec, rs: seq<Resp<Bytes>>, k: nat)
    requires codec.Valid() && k < |codec.decoded|
    requires codec.received <= EncodeAll(rs) && forall i :: 0 <= i < |rs| ==> Encodable(rs[i])
    ensures k < |codec.accepted| && ShapeOf(codec.decoded[k]) == codec.accepted[k]
    ensures AllReplies(codec.decoded[..k]) + Replies(codec.decoded[k]) <= rs
  {
    hide Streamed, Collected, Fifo, Encodable, EncodeAll, AllReplies;
    ShapesInOrder(codec.cell, codec.curr, codec.accepted, codec.decoded);
    RepliesInOrder(rs, codec.received, codec.input, codec.taken, codec.curr, codec.buf, codec.decoded, k);
  }

  lemma AllInOrder(rs: seq<Resp<Bytes>>, received: Bytes, input: Bytes, taken: seq<Resp<Bytes>>,
                   curr: Option<Shape>, buf: seq<Resp<Bytes>>, decoded: seq<Packet>)
    requires Streamed(received, input, taken) && Collected(curr, buf, decoded, taken)
    requires received <= EncodeAll(rs) && forall i :: 0 <= i < |rs| ==> Encodable(rs[i])
    ensures AllReplies(decoded) <= rs
  {
    hide Streamed, Encodable, EncodeAll, AllReplies;
    TakenInOrder(rs, received, input, taken);
  }

  /** In every run of a new codec, however requests, arrivals and polls interleave and
      however the bytes are cut, the packets returned have the shapes accepted, in order,
      and carry the replies in the order sent. */
  method RunInOrder(events: seq<Event>, ghost rs: seq<Resp<Bytes>>) returns (packets: seq<Packet>, shapes: seq<Shape>)
    requires Arrived(events) <= EncodeAll(rs) && forall i :: 0 <= i < |rs| ==> Encodable(rs[i])
    ensures |packets| <= |shapes| <= |packets| + 2
    ensures forall k :: 0 <= k < |packets| ==> ShapeOf(packets[k]) == shapes[k]
    ensures AllReplies(packets) <= rs
  {
    var codec := new Codec();
    packets, shapes := codec.Run(events);
    hide Fifo, Collected, Streamed, EncodeAll, Encodable, AllReplies, Arrived;
    assert codec.decoded == packets && codec.accepted == shapes && codec.received == Arrived(events);
    ShapesInOrder(codec.cell, codec.curr, codec.accepted, codec.decoded);
    AllInOrder(rs, codec.received, codec.input, codec.taken, codec.curr, codec.buf, codec.decoded);
  }
}

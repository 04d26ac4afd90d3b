/** Slot ranges and range lists (src/common/cluster.rs).

    A range list is read through `Cover`, the number of its ranges that hold a
    slot.  Counting, rather than asking for membership, lets "every slot exactly
    once" be an equation that is conserved when ranges are cut and moved. */
module Ranges {

  const SLOT_NUM: nat := 16384

  datatype Range = Range(start: nat, end: nat)

  type RangeList = seq<Range>

  predicate Holds(r: Range, s: nat) {
    r.start <= s <= r.end
  }

  /** How many ranges of `rl` hold slot `s`. */
  ghost function Cover(rl: RangeList, s: nat): nat {
    if rl == [] then 0 else (if Holds(rl[0], s) then 1 else 0) + Cover(rl[1..], s)
  }

  predicate Ordered(rl: RangeList) {
    forall i :: 0 <= i < |rl| ==> rl[i].start <= rl[i].end
  }

  /** Increasing ranges with at least one missing slot between neighbours. */
  predicate Canonical(rl: RangeList) {
    && Ordered(rl)
    && forall i, j :: 0 <= i < j < |rl| ==> rl[i].end + 1 < rl[j].start
  }

  ghost function Width(r: Range): nat {
    if r.start <= r.end then r.end - r.start + 1 else 0
  }

  ghost function Size(rl: RangeList): nat {
    if rl == [] then 0 else Width(rl[0]) + Size(rl[1..])
  }

  /** `get_slots_num`: the subtraction needs every range the right way round. */
  function SlotsNum(rl: RangeList): (n: nat)
    requires Ordered(rl)
    ensures n == Size(rl)
  {
    if rl == [] then 0 else rl[0].end - rl[0].start + 1 + SlotsNum(rl[1..])
  }

  function Normal(r: Range): (n: Range)
    ensures n.start <= n.end
  {
    if r.start > r.end then Range(r.end, r.start) else r
  }

  function Normals(rl: RangeList): (ns: RangeList)
    ensures |ns| == |rl| && Ordered(ns)
    ensures forall i :: 0 <= i < |rl| ==> ns[i] == Normal(rl[i])
  {
    if rl == [] then [] else [Normal(rl[0])] + Normals(rl[1..])
  }

  // ----- Cover and Size -----

  lemma {:induction false} CoverAppend(a: RangeList, b: RangeList, s: nat)
    ensures Cover(a + b, s) == Cover(a, s) + Cover(b, s)
  {
    if a == [] {
      assert a + b == b;
    } else {
      assert (a + b)[1..] == a[1..] + b;
      CoverAppend(a[1..], b, s);
    }
  }

  lemma {:induction false} SizeAppend(a: RangeList, b: RangeList)
    ensures Size(a + b) == Size(a) + Size(b)
  {
    if a == [] {
      assert a + b == b;
    } else {
      assert (a + b)[1..] == a[1..] + b;
      SizeAppend(a[1..], b);
    }
  }

  lemma {:induction false} CoverWitness(rl: RangeList, s: nat)
    ensures Cover(rl, s) > 0 <==> exists i :: 0 <= i < |rl| && Holds(rl[i], s)
  {
    if rl != [] {
      CoverWitness(rl[1..], s);
      if exists i :: 0 <= i < |rl| && Holds(rl[i], s) {
        var i :| 0 <= i < |rl| && Holds(rl[i], s);
        if i > 0 {
          assert Holds(rl[1..][i - 1], s);
        }
      }
      if Cover(rl[1..], s) > 0 {
        var i :| 0 <= i < |rl[1..]| && Holds(rl[1..][i], s);
        assert Holds(rl[i + 1], s);
      }
    }
  }

  /** In a canonical list no slot is held twice. */
  lemma {:induction false} CanonicalCover(rl: RangeList, s: nat)
    requires Canonical(rl)
    ensures Cover(rl, s) <= 1
  {
    if rl != [] {
      CanonicalCover(rl[1..], s);
      CoverWitness(rl[1..], s);
    }
  }

  /** The slots below `n`, counted with multiplicity. */
  ghost function CoverSum(rl: RangeList, n: nat): nat {
    if n == 0 then 0 else Cover(rl, n - 1) + CoverSum(rl, n - 1)
  }

  lemma {:induction false} CoverSumEmpty(n: nat)
    ensures CoverSum([], n) == 0
  {
    if n > 0 {
      CoverSumEmpty(n - 1);
    }
  }

  lemma {:induction false} CoverSumHead(rl: RangeList, n: nat)
    requires rl != [] && rl[0].start <= rl[0].end
    ensures CoverSum(rl, n) == CoverSum(rl[1..], n) +
                               if n <= rl[0].start then 0
                               else if n <= rl[0].end then n - rl[0].start
                               else rl[0].end - rl[0].start + 1
  {
    if n > 0 {
      CoverSumHead(rl, n - 1);
    }
  }

  /** Counting slots range by range or slot by slot gives the same number. */
  lemma {:induction false} SizeIsCoverSum(rl: RangeList, n: nat)
    requires Ordered(rl)
    requires forall i :: 0 <= i < |rl| ==> rl[i].end < n
    ensures Size(rl) == CoverSum(rl, n)
  {
    if rl == [] {
      CoverSumEmpty(n);
    } else {
      SizeIsCoverSum(rl[1..], n);
      CoverSumHead(rl, n);
    }
  }

  ghost function Bound(rl: RangeList): (n: nat)
    ensures forall i :: 0 <= i < |rl| ==> rl[i].end < n
  {
    if rl == [] then 0
    else
      var b := Bound(rl[1..]);
      assert forall i :: 1 <= i < |rl| ==> rl[i] == rl[1..][i - 1];
      if rl[0].end < b then b else rl[0].end + 1
  }

  lemma {:induction false} CoverSumEqual(a: RangeList, b: RangeList, n: nat)
    requires forall s: nat :: Cover(a, s) == Cover(b, s)
    ensures CoverSum(a, n) == CoverSum(b, n)
  {
    if n > 0 {
      CoverSumEqual(a, b, n - 1);
    }
  }

  /** The size of a list depends only on which slots it holds, and how often. */
  lemma SizeFromCover(a: RangeList, b: RangeList)
    requires Ordered(a) && Ordered(b)
    requires forall s: nat :: Cover(a, s) == Cover(b, s)
    ensures Size(a) == Size(b)
  {
    var n := Bound(a) + Bound(b);
    SizeIsCoverSum(a, n);
    SizeIsCoverSum(b, n);
    CoverSumEqual(a, b, n);
  }

  lemma EmptyList()
    ensures Size([]) == 0
    ensures forall s: nat :: Cover([], s) == 0
    ensures forall r :: Size([r]) == Width(r)
  {
    forall r ensures Size([r]) == Width(r) {
      assert [r][1..] == [];
    }
  }

  lemma {:induction false} SizeZero(rl: RangeList)
    requires Ordered(rl)
    ensures Size(rl) == 0 <==> rl == []
  {
  }

  ghost function SlotsBelow(rl: RangeList, n: nat): set<nat> {
    set s: nat | s < n && Cover(rl, s) > 0
  }

  lemma {:induction false} CanonicalCount(rl: RangeList, n: nat)
    requires Canonical(rl)
    ensures |SlotsBelow(rl, n)| == CoverSum(rl, n)
  {
    if n == 0 {
      assert SlotsBelow(rl, 0) == {};
    } else {
      CanonicalCount(rl, n - 1);
      CanonicalCover(rl, n - 1);
      if Cover(rl, n - 1) > 0 {
        assert SlotsBelow(rl, n) == SlotsBelow(rl, n - 1) + {n - 1};
      } else {
        assert SlotsBelow(rl, n) == SlotsBelow(rl, n - 1);
      }
    }
  }

  /** On a canonical list `get_slots_num` is the number of distinct slots. */
  lemma SizeIsCardinality(rl: RangeList, n: nat)
    requires Canonical(rl) && forall i :: 0 <= i < |rl| ==> rl[i].end < n
    ensures Size(rl) == |SlotsBelow(rl, n)|
  {
    CanonicalCount(rl, n);
    SizeIsCoverSum(rl, n);
  }

  // ----- the simple form of compact: insert one range at a time -----

  function Min(a: nat, b: nat): nat { if a <= b then a else b }

  function Max(a: nat, b: nat): nat { if a <= b then b else a }

  function Insert(r: Range, rl: RangeList): (out: RangeList)
    requires r.start <= r.end && Canonical(rl)
    ensures Canonical(out) && out != []
    ensures forall i :: 0 <= i < |out| ==> Min(r.start, if rl == [] then r.start else rl[0].start) <= out[i].start
    decreases rl
  {
    if rl == [] then [r]
    else if r.end + 1 < rl[0].start then [r] + rl
    else if rl[0].end + 1 < r.start then
      var rest := Insert(r, rl[1..]);
      assert forall i :: 0 <= i < |rest| ==> rl[0].end + 1 < rest[i].start;
      [rl[0]] + rest
    else
      Insert(Range(Min(r.start, rl[0].start), Max(r.end, rl[0].end)), rl[1..])
  }

  function Compacted(rl: RangeList): (out: RangeList)
    ensures Canonical(out)
    ensures out == [] <==> rl == []
  {
    if rl == [] then [] else Insert(Normal(rl[0]), Compacted(rl[1..]))
  }

  lemma {:induction false} InsertCover(r: Range, rl: RangeList, s: nat)
    requires r.start <= r.end && Canonical(rl)
    ensures Cover(Insert(r, rl), s) > 0 <==> Holds(r, s) || Cover(rl, s) > 0
    decreases rl
  {
    if rl == [] {
    } else if r.end + 1 < rl[0].start {
      assert ([r] + rl)[1..] == rl;
    } else if rl[0].end + 1 < r.start {
      InsertCover(r, rl[1..], s);
      var rest := Insert(r, rl[1..]);
      assert ([rl[0]] + rest)[1..] == rest;
    } else {
      InsertCover(Range(Min(r.start, rl[0].start), Max(r.end, rl[0].end)), rl[1..], s);
    }
  }

  /** `compact` keeps the slot set, each slot now held once. */
  lemma {:induction false} CompactedCover(rl: RangeList, s: nat)
    ensures Cover(Compacted(rl), s) == if Cover(Normals(rl), s) > 0 then 1 else 0
  {
    if rl != [] {
      CompactedCover(rl[1..], s);
      InsertCover(Normal(rl[0]), Compacted(rl[1..]), s);
      assert Normals(rl)[1..] == Normals(rl[1..]);
    }
    CanonicalCover(Compacted(rl), s);
  }

  lemma NormalsOrdered(rl: RangeList)
    requires Ordered(rl)
    ensures Normals(rl) == rl
  {
  }

  /** Canonical lists holding the same slots start with the same range. */
  lemma CanonicalHead(a: RangeList, b: RangeList)
    requires Canonical(a) && Canonical(b) && a != []
    requires forall s: nat :: Cover(a, s) > 0 <==> Cover(b, s) > 0
    ensures b != [] && a[0].start >= b[0].start
    ensures a[0].start == b[0].start ==> a[0].end <= b[0].end
  {
    var s := a[0].start;
    assert Holds(a[0], s);
    CoverWitness(a, s);
    CoverWitness(b, s);
    if a[0].start == b[0].start && b[0].end < a[0].end {
      var t := b[0].end + 1;
      assert Holds(a[0], t);
      CoverWitness(a, t);
      CoverWitness(b, t);
      assert false;
    }
  }

  /** A canonical list is determined by its slot set. */
  lemma {:induction false} CanonicalUnique(a: RangeList, b: RangeList)
    requires Canonical(a) && Canonical(b)
    requires forall s: nat :: Cover(a, s) > 0 <==> Cover(b, s) > 0
    ensures a == b
  {
    if a == [] {
      if b != [] {
        CanonicalHead(b, a);
      }
    } else {
      CanonicalHead(a, b);
      CanonicalHead(b, a);
      assert a[0] == b[0];
      forall s: nat ensures Cover(a[1..], s) > 0 <==> Cover(b[1..], s) > 0 {
        CanonicalCover(a, s);
        CanonicalCover(b, s);
        assert Cover(a, s) > 0 <==> Cover(b, s) > 0;
      }
      CanonicalUnique(a[1..], b[1..]);
      assert a == [a[0]] + a[1..] && b == [b[0]] + b[1..];
    }
  }

  /** `compact` is idempotent: it leaves a canonical list alone. */
  lemma CompactedCanonical(rl: RangeList)
    requires Canonical(rl)
    ensures Compacted(rl) == rl
  {
    NormalsOrdered(rl);
    forall s: nat ensures Cover(Compacted(rl), s) > 0 <==> Cover(rl, s) > 0 {
      CompactedCover(rl, s);
    }
    CanonicalUnique(Compacted(rl), rl);
  }

  /** Lists whose ranges do not overlap keep cover and size when compacted. */
  lemma CompactedDisjoint(rl: RangeList)
    requires Ordered(rl) && forall s: nat :: Cover(rl, s) <= 1
    ensures forall s: nat :: Cover(Compacted(rl), s) == Cover(rl, s)
    ensures Size(Compacted(rl)) == Size(rl)
  {
    NormalsOrdered(rl);
    forall s: nat ensures Cover(Compacted(rl), s) == Cover(rl, s) {
      CompactedCover(rl, s);
    }
    SizeFromCover(Compacted(rl), rl);
  }

  // ----- compact and merge_another as the source runs them -----

  predicate SortedByStart(rl: RangeList) {
    forall i, j :: 0 <= i < j < |rl| ==> rl[i].start <= rl[j].start
  }

  function InsertByStart(r: Range, rl: RangeList): (out: RangeList)
    requires SortedByStart(rl)
    ensures SortedByStart(out) && |out| == |rl| + 1
    ensures forall x :: x in out <==> x == r || x in rl
  {
    if rl == [] || r.start <= rl[0].start then [r] + rl
    else
      var rest := InsertByStart(r, rl[1..]);
      assert forall i :: 0 <= i < |rest| ==> rest[i] in rest;
      assert forall x :: x in rl <==> x == rl[0] || x in rl[1..];
      [rl[0]] + rest
  }

  /** The library sort: the same ranges in order of their start. */
  function SortByStart(rl: RangeList): (out: RangeList)
    ensures SortedByStart(out) && |out| == |rl|
    ensures forall x :: x in out <==> x in rl
  {
    if rl == [] then [] else InsertByStart(rl[0], SortByStart(rl[1..]))
  }

  ghost predicate SameSlots(a: RangeList, b: RangeList) {
    forall s: nat :: Cover(a, s) > 0 <==> Cover(b, s) > 0
  }

  lemma SameRangesSameSlots(a: RangeList, b: RangeList)
    requires forall x :: x in a <==> x in b
    ensures SameSlots(a, b)
  {
    forall s: nat ensures Cover(a, s) > 0 <==> Cover(b, s) > 0 {
      CoverWitness(a, s);
      CoverWitness(b, s);
      if i :| 0 <= i < |a| && Holds(a[i], s) {
        assert a[i] in b;
      }
      if i :| 0 <= i < |b| && Holds(b[i], s) {
        assert b[i] in a;
      }
    }
  }

  lemma CoverSnoc(rl: RangeList, r: Range, s: nat)
    ensures Cover(rl + [r], s) == Cover(rl, s) + if Holds(r, s) then 1 else 0
  {
    CoverAppend(rl, [r], s);
  }

  /** The merging loop absorbs a range that overlaps or touches the last kept one. */
  lemma AbsorbStep(kept: RangeList, last: Range, seen: RangeList, e: Range)
    requires last.start <= e.start <= last.end + 1 && e.start <= e.end
    requires SameSlots(kept + [last], seen)
    ensures SameSlots(kept + [Range(last.start, Max(last.end, e.end))], seen + [e])
  {
    var wide := Range(last.start, Max(last.end, e.end));
    forall s: nat ensures Cover(kept + [wide], s) > 0 <==> Cover(seen + [e], s) > 0 {
      CoverSnoc(kept, last, s);
      CoverSnoc(kept, wide, s);
      CoverSnoc(seen, e, s);
      assert Cover(kept + [last], s) > 0 <==> Cover(seen, s) > 0;
    }
  }

  lemma KeepStep(kept: RangeList, seen: RangeList, e: Range)
    requires SameSlots(kept, seen)
    ensures SameSlots(kept + [e], seen + [e])
  {
    forall s: nat ensures Cover(kept + [e], s) > 0 <==> Cover(seen + [e], s) > 0 {
      CoverSnoc(kept, e, s);
      CoverSnoc(seen, e, s);
      assert Cover(kept, s) > 0 <==> Cover(seen, s) > 0;
    }
  }

  class RangeVec {
    var ranges: RangeList

    constructor (rl: RangeList)
      ensures ranges == rl
    {
      ranges := rl;
    }

    method Compact()
      modifies this
      ensures ranges == Compacted(old(ranges))
    {
      SwapReversed();
      ranges := SortByStart(ranges);
      assert Ordered(ranges) by {
        assert forall i :: 0 <= i < |ranges| ==> ranges[i] in ranges;
      }
      MergeNeighbours();
      ghost var input := old(ranges);
      SameRangesSameSlots(SortByStart(Normals(input)), Normals(input));
      forall s: nat ensures Cover(ranges, s) > 0 <==> Cover(Compacted(input), s) > 0 {
        CompactedCover(input, s);
        assert Cover(ranges, s) > 0 <==> Cover(SortByStart(Normals(input)), s) > 0;
        assert Cover(SortByStart(Normals(input)), s) > 0 <==> Cover(Normals(input), s) > 0;
      }
      CanonicalUnique(ranges, Compacted(input));
    }

    method SwapReversed()
      modifies this
      ensures ranges == Normals(old(ranges))
    {
      var i := 0;
      while i < |ranges|
        invariant 0 <= i <= |ranges| == |old(ranges)|
        invariant forall j :: 0 <= j < i ==> ranges[j] == Normal(old(ranges)[j])
        invariant forall j :: i <= j < |ranges| ==> ranges[j] == old(ranges)[j]
      {
        if ranges[i].start > ranges[i].end {
          ranges := ranges[i := Range(ranges[i].end, ranges[i].start)];
        }
        i := i + 1;
      }
    }

    method MergeNeighbours()
      requires Ordered(ranges) && SortedByStart(ranges)
      modifies this
      ensures Canonical(ranges) && SameSlots(ranges, old(ranges))
    {
      if ranges == [] {
        return;
      }
      ghost var sorted := ranges;
      var a, b := 0, 1;
      while b < |ranges|
        invariant 0 <= a < b <= |ranges| == |sorted|
        invariant forall j :: b <= j < |ranges| ==> ranges[j] == sorted[j]
        invariant Canonical(ranges[..a + 1])
        invariant forall j :: b <= j < |ranges| ==> ranges[a].start <= sorted[j].start
        invariant SameSlots(ranges[..a + 1], sorted[..b])
      {
        var e := ranges[b];
        var last := ranges[a];
        ghost var kept := ranges[..a];
        assert ranges[..a + 1] == kept + [last];
        assert sorted[..b + 1] == sorted[..b] + [e];
        if last.end + 1 >= e.start {
          AbsorbStep(kept, last, sorted[..b], e);
          ranges := ranges[a := Range(last.start, Max(last.end, e.end))];
          assert ranges[..a + 1] == kept + [ranges[a]];
          b := b + 1;
          continue;
        }
        KeepStep(kept + [last], sorted[..b], e);
        ranges := ranges[a + 1 := e];
        assert ranges[..a + 2] == kept + [last] + [e];
        a := a + 1;
        b := b + 1;
      }
      assert sorted[..b] == sorted;
      ranges := ranges[..a + 1];
    }

    method MergeAnother(other: RangeList)
      modifies this
      ensures ranges == Compacted(old(ranges) + other)
    {
      ranges := ranges + other;
      Compact();
    }
  }

  // ----- RangeMap -----

  /** `contains_slot`: a slot below `minSlot` or past the table is absent. */
  predicate InMap(minSlot: nat, present: seq<bool>, slot: nat) {
    minSlot <= slot < minSlot + |present| && present[slot - minSlot]
  }

  predicate InSlotSpace(rl: RangeList) {
    rl == [] || rl[|rl| - 1].end < SLOT_NUM
  }

  /** Building the lookup table: it answers exactly like the list, unless the
      list leaves the slot space, in which case the table is empty. */
  method BuildRangeMap(rl: RangeList) returns (minSlot: nat, present: array<bool>)
    requires Canonical(rl)
    ensures forall s: nat :: InMap(minSlot, present[..], s) <==> InSlotSpace(rl) && Cover(rl, s) > 0
    ensures rl != [] && InSlotSpace(rl) ==>
              minSlot == rl[0].start && minSlot + present.Length == rl[|rl| - 1].end + 1
    ensures rl == [] || !InSlotSpace(rl) ==> minSlot == present.Length == 0
  {
    var len := 0;
    minSlot := 0;
    if rl != [] && rl[0].start < SLOT_NUM && rl[|rl| - 1].end < SLOT_NUM {
      minSlot := rl[0].start;
      len := rl[|rl| - 1].end - minSlot + 1;
    }
    present := new bool[len](_ => false);
    var i := 0;
    while i < |rl|
      invariant 0 <= i <= |rl|
      invariant forall k :: 0 <= k < len ==> (present[k] <==> Cover(rl[..i], minSlot + k) > 0)
    {
      var slot := rl[i].start;
      while slot <= rl[i].end
        invariant rl[i].start <= slot <= rl[i].end + 1
        invariant forall k :: 0 <= k < len ==>
                    (present[k] <==> Cover(rl[..i], minSlot + k) > 0 || rl[i].start <= minSlot + k < slot)
      {
        if minSlot <= slot < minSlot + len {
          present[slot - minSlot] := true;
        }
        slot := slot + 1;
      }
      assert rl[..i + 1] == rl[..i] + [rl[i]];
      forall k | 0 <= k < len ensures present[k] <==> Cover(rl[..i + 1], minSlot + k) > 0 {
        CoverSnoc(rl[..i], rl[i], minSlot + k);
      }
      i := i + 1;
    }
    assert rl[..|rl|] == rl;
    forall s: nat ensures InMap(minSlot, present[..], s) <==> InSlotSpace(rl) && Cover(rl, s) > 0 {
      CoverWitness(rl, s);
      if minSlot <= s < minSlot + len {
        assert present[..][s - minSlot] <==> Cover(rl[..|rl|], s) > 0;
      }
    }
  }
}

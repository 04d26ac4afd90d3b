/** The scale-down planner: the masters past the new count give all their slots,
    lowest first, to the ones that stay (src/broker/migrate.rs,
    remove_slots_from_src_to_scale_down).

    The planner has no case for a destination that needs nothing.  Meeting one, it
    plans a reversed range, which compacting turns into two slots that also stay
    elsewhere; `dup` records that this has happened. */
module ScaleDown {
  import opened Ranges
  import opened Shares
  import opened ClusterState
  import opened Planning
  import opened ScaleOut

  datatype Dest = Dest(m: nat, average: nat, remainder: nat, epoch: nat, existing: seq<nat>)

  /** No destination holds more than its quota already. */
  ghost predicate Sane(d: Dest) {
    && 0 < d.m == |d.existing|
    && forall j :: 0 <= j < d.m ==> d.existing[j] <= Quota(d.average, d.remainder, j)
  }

  function Need(d: Dest, j: nat): nat
    requires Sane(d) && j < d.m
  {
    Quota(d.average, d.remainder, j) - d.existing[j]
  }

  ghost function NeedSum(d: Dest, a: nat): nat
    requires Sane(d)
    decreases d.m - a
  {
    if a >= d.m then 0 else Need(d, a) + NeedSum(d, a + 1)
  }

  lemma NeedSumStep(d: Dest, a: nat)
    requires Sane(d)
    ensures a < d.m ==> NeedSum(d, a) == Need(d, a) + NeedSum(d, a + 1)
    ensures a >= d.m ==> NeedSum(d, a) == 0
  {
  }

  ghost predicate FullBeforeNeedy(d: Dest)
    requires Sane(d)
  {
    exists j, k :: 0 <= j < k < d.m && Need(d, j) == 0 && Need(d, k) > 0
  }

  lemma {:induction false} NeedSumPositive(d: Dest, a: nat) returns (k: nat)
    requires Sane(d) && NeedSum(d, a) > 0
    ensures a <= k < d.m && Need(d, k) > 0
    decreases d.m - a
  {
    if Need(d, a) > 0 {
      k := a;
    } else {
      k := NeedSumPositive(d, a + 1);
    }
  }

  lemma {:induction false} NeedSumMember(d: Dest, a: nat, k: nat)
    requires Sane(d) && a <= k < d.m
    ensures Need(d, k) <= NeedSum(d, a)
    decreases d.m - a
  {
    if a < k {
      NeedSumMember(d, a + 1, k);
    }
  }

  // ----- one source -----

  /** Takes up to `removeNum` slots off the first range; taking none still yields
      a range, with its ends the wrong way round. */
  method CutFront(ranges: RangeList, removeNum: nat) returns (rest: RangeList, piece: Range)
    requires Canonical(ranges) && ranges != [] && ranges[0].start > 0
    ensures Canonical(rest) && (rest != [] ==> rest[0].start > 0)
    ensures removeNum > 0 ==> 0 < Width(piece) <= removeNum && piece.start <= piece.end
    ensures removeNum == 0 ==> rest == ranges && piece == Range(ranges[0].start, ranges[0].start - 1)
    ensures Splits(ranges, rest, [piece])
    ensures Size(ranges) == Size(rest) + Width(piece)
  {
    var first := ranges[0];
    var num := first.end - first.start + 1;
    assert ranges == [first] + ranges[1..];
    if removeNum >= num {
      rest, piece := ranges[1..], first;
    } else {
      rest := ranges[0 := Range(first.start + removeNum, first.end)];
      piece := Range(first.start, removeNum + first.start - 1);
      assert rest[1..] == ranges[1..];
    }
    EmptyList();
    forall s: nat ensures Cover(ranges, s) == Cover(rest, s) + Cover([piece], s) {
      assert Cover([piece], s) == if Holds(piece, s) then 1 else 0;
    }
  }

  /** Slots before (`r0` and the earlier tasks) and after (`r`, `pending` and all
      tasks): nothing is lost, and something is doubled exactly if `dup`. */
  ghost predicate Covered(r0: RangeList, ts0: seq<Task>, r: RangeList, pending: RangeList, ts: seq<Task>, dup: bool) {
    && (forall s: nat ::
          Cover(r0, s) + TaskCover(ts0, s) <= Cover(r, s) + Cover(pending, s) + TaskCover(ts, s))
    && (!dup ==> Conserved(r0, ts0, r, pending, ts))
    && (dup ==> exists s: nat ::
          Cover(r0, s) + TaskCover(ts0, s) < Cover(r, s) + Cover(pending, s) + TaskCover(ts, s))
  }

  ghost predicate Sound(ranges: RangeList, pending: RangeList, tasks: seq<Task>,
                        ranges0: RangeList, tasks0: seq<Task>, src: nat, dup: bool)
  {
    && Canonical(ranges0) && Canonical(ranges) && Ordered(pending)
    && (ranges != [] ==> ranges[0].start > 0)
    && tasks0 <= tasks
    && (forall k :: |tasks0| <= k < |tasks| ==> tasks[k].meta.src == src)
    && Covered(ranges0, tasks0, ranges, pending, tasks, dup)
    && (forall s: nat :: Cover(ranges, s) + Cover(pending, s) <= Cover(ranges0, s))
  }

  lemma SoundCut(ranges: RangeList, pending: RangeList, tasks: seq<Task>, ranges0: RangeList, tasks0: seq<Task>,
                 src: nat, dup: bool, rest: RangeList, piece: Range)
    requires Sound(ranges, pending, tasks, ranges0, tasks0, src, dup)
    requires Canonical(rest) && (rest != [] ==> rest[0].start > 0) && piece.start <= piece.end
    requires Splits(ranges, rest, [piece])
    ensures Sound(rest, pending + [piece], tasks, ranges0, tasks0, src, dup)
  {
    forall s: nat ensures Cover(ranges, s) + Cover(pending, s) == Cover(rest, s) + Cover(pending + [piece], s) {
      CoverAppend(pending, [piece], s);
      assert Cover(ranges, s) == Cover(rest, s) + Cover([piece], s);
    }
  }

  /** Ordinary pieces become a task without changing what is covered. */
  lemma SoundPush(ranges: RangeList, pending: RangeList, tasks: seq<Task>, ranges0: RangeList, tasks0: seq<Task>,
                  src: nat, dup: bool, meta: Meta)
    requires Sound(ranges, pending, tasks, ranges0, tasks0, src, dup) && meta.src == src
    ensures Sound(ranges, [], tasks + [Task(Compacted(pending), meta)], ranges0, tasks0, src, dup)
    ensures Size(Compacted(pending)) == Size(pending)
  {
    forall s: nat ensures Cover(pending, s) <= 1 {
      CanonicalCover(ranges0, s);
      assert Cover(ranges, s) + Cover(pending, s) <= Cover(ranges0, s);
    }
    CompactedDisjoint(pending);
    var t := Task(Compacted(pending), meta);
    forall s: nat
      ensures Cover(ranges, s) + Cover(pending, s) + TaskCover(tasks, s) ==
              Cover(ranges, s) + Cover([], s) + TaskCover(tasks + [t], s)
      ensures Cover(ranges, s) + Cover([], s) <= Cover(ranges0, s)
    {
      TaskCoverSnoc(tasks, t, s);
      assert Cover(t.ranges, s) == Cover(pending, s);
      assert Cover(ranges, s) + Cover(pending, s) <= Cover(ranges0, s);
    }
  }

  /** A reversed range becomes a task over two slots the source still has or has
      already given away. */
  lemma SoundDup(ranges: RangeList, tasks: seq<Task>, ranges0: RangeList, tasks0: seq<Task>,
                 src: nat, dup: bool, meta: Meta, start: nat)
    requires Sound(ranges, [], tasks, ranges0, tasks0, src, dup) && meta.src == src && start > 0
    ensures Compacted([Range(start, start - 1)]) == [Range(start - 1, start)]
    ensures Sound(ranges, [], tasks + [Task([Range(start - 1, start)], meta)], ranges0, tasks0, src, true)
  {
    assert Compacted([]) == [] && [Range(start, start - 1)][1..] == [];
    var t := Task([Range(start - 1, start)], meta);
    forall s: nat ensures TaskCover(tasks + [t], s) >= TaskCover(tasks, s) {
      TaskCoverSnoc(tasks, t, s);
    }
    TaskCoverSnoc(tasks, t, start);
    assert Cover(t.ranges, start) == 1;
    assert Cover(ranges0, start) + TaskCover(tasks0, start) <
           Cover(ranges, start) + Cover([], start) + TaskCover(tasks + [t], start);
  }

  // ----- counting -----

  ghost predicate Filled(ts: seq<Task>, d: Dest, cur: nat, num: nat, pending: nat)
    requires Sane(d)
  {
    && SizeTo(ts, cur) + pending == num
    && (forall j :: 0 <= j < cur && j < d.m ==> SizeTo(ts, j) == Need(d, j))
    && (forall j :: cur < j ==> SizeTo(ts, j) == 0)
  }

  /** What holds of the counts; `rest` is what the sources to come hold, and `dup`
      tells whether a full destination has been met so far. */
  ghost predicate Counted(w: Work, d: Dest, rest: nat, dup: bool) {
    && Sane(d) && w.cur <= d.m
    && Size(w.ranges) + rest == NeedSum(d, w.cur) - w.num
    && (w.num == 0 || (w.cur < d.m && w.num < Need(d, w.cur)))
    && (!dup ==> Filled(w.tasks, d, w.cur, w.num, Size(w.pending)) && forall j :: 0 <= j < w.cur ==> Need(d, j) > 0)
    && (dup ==> FullBeforeNeedy(d))
    && (w.pending != [] ==> w.num > 0)
  }

  ghost predicate GoodTasks(ts: seq<Task>, n: nat, d: Dest) {
    forall t :: t in ts ==>
      t.ranges != [] && Canonical(t.ranges) && d.m <= t.meta.src < n && t.meta.dst < d.m && t.meta.epoch == d.epoch
  }

  function NextTask(w: Work, d: Dest, src: nat): Task {
    Task(Compacted(w.pending), Meta(d.epoch, src, w.cur))
  }

  lemma FilledPush(ts: seq<Task>, t: Task, d: Dest, cur: nat, num: nat, pending: nat)
    requires Sane(d) && Filled(ts, d, cur, num, pending) && t.meta.dst == cur && Size(t.ranges) == pending
    ensures Filled(ts + [t], d, cur, num, 0)
  {
    forall j ensures SizeTo(ts + [t], j) == SizeTo(ts, j) + if j == cur then pending else 0 {
      SizeToSnoc(ts, t, j);
    }
  }

  /** The counts between taking a piece and settling it. */
  ghost predicate Taken(w: Work, d: Dest, rest: nat, dup: bool) {
    && Sane(d) && w.cur < d.m && w.pending != []
    && Size(w.ranges) + rest == NeedSum(d, w.cur) - w.num
    && 0 < w.num <= Need(d, w.cur)
    && (!dup ==> Filled(w.tasks, d, w.cur, w.num, Size(w.pending)) && forall j :: 0 <= j < w.cur ==> Need(d, j) > 0)
    && (dup ==> FullBeforeNeedy(d))
  }

  lemma TakenAfterCut(w0: Work, w: Work, d: Dest, rest: nat, dup: bool, piece: Range)
    requires Counted(w0, d, rest, dup) && w0.cur < d.m
    requires w == Work(w.ranges, w0.pending + [piece], w0.cur, w0.num + Width(piece), w0.tasks)
    requires Size(w0.ranges) == Size(w.ranges) + Width(piece) && 0 < Width(piece)
    requires w.num <= Need(d, w.cur)
    ensures Taken(w, d, rest, dup)
  {
    SizeAppend(w0.pending, [piece]);
    EmptyList();
  }

  lemma PushedCounts(w: Work, d: Dest, src: nat, rest: nat, dup: bool)
    requires Taken(w, d, rest, dup) && Size(Compacted(w.pending)) == Size(w.pending)
    ensures var w' := w.(pending := [], tasks := w.tasks + [NextTask(w, d, src)]);
            if w.num < Need(d, w.cur) then Counted(w', d, rest, dup)
            else Counted(w'.(cur := w.cur + 1, num := 0), d, rest, dup)
  {
    EmptyList();
    NeedSumStep(d, w.cur);
    if !dup {
      FilledPush(w.tasks, NextTask(w, d, src), d, w.cur, w.num, Size(w.pending));
    }
    hide NeedSum, Ranges.Size, Ranges.Compacted, FullBeforeNeedy;
  }

  /** Meeting a full destination: the counts go on as if nothing had happened. */
  lemma DupCounts(w: Work, d: Dest, rest: nat, dup: bool, t: Task)
    requires Counted(w, d, rest, dup) && w.cur < d.m && Need(d, w.cur) == 0 && w.ranges != [] && Ordered(w.ranges)
    ensures w.pending == [] && w.num == 0
    ensures Counted(w.(tasks := w.tasks + [t], cur := w.cur + 1), d, rest, true)
  {
    SizeZero(w.ranges);
    NeedSumStep(d, w.cur);
    var k := NeedSumPositive(d, w.cur);
    assert Need(d, w.cur) == 0 && Need(d, k) > 0;
  }

  // ----- the inner loop -----

  /** The working state is consistent before a round of the inner loop. */
  ghost predicate Ready(w: Work, d: Dest, src: nat, ranges0: RangeList, tasks0: seq<Task>,
                        rest: nat, dup: bool, dupHere: bool)
  {
    && Sound(w.ranges, w.pending, w.tasks, ranges0, tasks0, src, dupHere)
    && Counted(w, d, rest, dup)
  }

  /** A piece was taken: a real one for a destination that needs slots, or the
      reversed range for a full one. */
  ghost predicate PieceTaken(w0: Work, w: Work, d: Dest, src: nat, ranges0: RangeList, tasks0: seq<Task>,
                             rest: nat, dup: bool, dupHere: bool)
    requires Sane(d) && w0.cur < d.m && w0.ranges != []
  {
    if Need(d, w0.cur) > 0 then
      && Sound(w.ranges, w.pending, w.tasks, ranges0, tasks0, src, dupHere)
      && Taken(w, d, rest, dup) && Size(w.ranges) < Size(w0.ranges)
      && w.cur == w0.cur && w.tasks == w0.tasks
    else
      w0.ranges[0].start > 0 && w == w0.(pending := [Range(w0.ranges[0].start, w0.ranges[0].start - 1)])
  }

  /** Lines 363-403: takes from the source what the destination needs. */
  method TakePiece(w0: Work, d: Dest, src: nat, ghost ranges0: RangeList, ghost tasks0: seq<Task>,
                   ghost rest: nat, ghost dup: bool, ghost dupHere: bool)
    returns (w: Work)
    requires Ready(w0, d, src, ranges0, tasks0, rest, dup, dupHere) && w0.cur < d.m && w0.ranges != []
    ensures PieceTaken(w0, w, d, src, ranges0, tasks0, rest, dup, dupHere)
  {
    SizeZero(w0.ranges);
    var dstFinalNum := Quota(d.average, d.remainder, w0.cur);
    var needNum := dstFinalNum - w0.num - d.existing[w0.cur];
    var availableNum := SlotsNum(w0.ranges);
    var removeNum := Min(needNum, availableNum);
    var ranges, piece := CutFront(w0.ranges, removeNum);
    w := Work(ranges, w0.pending + [piece], w0.cur, w0.num + (piece.end - piece.start + 1), w0.tasks);
    if Need(d, w0.cur) > 0 {
      SoundCut(w0.ranges, w0.pending, w0.tasks, ranges0, tasks0, src, dupHere, ranges, piece);
      TakenAfterCut(w0, w, d, rest, dup, piece);
    } else {
      DupCounts(w0, d, rest, dup, Task([], Meta(0, 0, 0)));
    }
  }

  /** Lines 405-427: emits a task once the destination is full or the source is
      empty. */
  method Settle(w0: Work, d: Dest, src: nat, n: nat, ghost before: Work, ghost ranges0: RangeList,
                ghost tasks0: seq<Task>, ghost rest: nat, ghost dup: bool, ghost dupHere: bool)
    returns (w: Work, ghost full: bool)
    requires Ready(before, d, src, ranges0, tasks0, rest, dup, dupHere) && before.cur < d.m && before.ranges != []
    requires PieceTaken(before, w0, d, src, ranges0, tasks0, rest, dup, dupHere)
    requires d.m <= src < n && GoodTasks(before.tasks, n, d)
    ensures Ready(w, d, src, ranges0, tasks0, rest, dup || full, dupHere || full)
    ensures w.ranges == w0.ranges && GoodTasks(w.tasks, n, d)
    ensures w.cur > before.cur || (w.cur == before.cur && Size(w.ranges) < Size(before.ranges))
    ensures w.ranges == [] ==> w.pending == []
  {
    full := Need(d, before.cur) == 0;
    var dstFinalNum := Quota(d.average, d.remainder, w0.cur);
    var dstExisting := d.existing[w0.cur];
    w := w0;
    if full {
      DupSettles(before, d, src, ranges0, tasks0, rest, dup, dupHere);
    } else {
      PushSettles(w0, d, src, ranges0, tasks0, rest, dup, dupHere);
    }
    assert w.num + dstExisting >= dstFinalNum <==> full || w.num >= Need(d, w.cur);
    assert Ordered(w0.ranges);
    hide Sound, Counted, Taken, Ranges.Compacted;
    if w.num + dstExisting >= dstFinalNum || SlotsNum(w.ranges) == 0 {
      w := w.(pending := [], tasks := w.tasks + [NextTask(w, d, src)]);
      if w.num + dstExisting >= dstFinalNum {
        w := w.(cur := w.cur + 1, num := 0);
      }
    } else {
      SizeZero(w.ranges);
    }
  }

  lemma PushSettles(w: Work, d: Dest, src: nat, ranges0: RangeList, tasks0: seq<Task>,
                    rest: nat, dup: bool, dupHere: bool)
    requires Sound(w.ranges, w.pending, w.tasks, ranges0, tasks0, src, dupHere) && Taken(w, d, rest, dup)
    ensures Ordered(w.ranges) && Compacted(w.pending) != [] && Canonical(Compacted(w.pending))
    ensures var w' := w.(pending := [], tasks := w.tasks + [NextTask(w, d, src)]);
            if w.num < Need(d, w.cur) then Ready(w', d, src, ranges0, tasks0, rest, dup, dupHere)
            else Ready(w'.(cur := w.cur + 1, num := 0), d, src, ranges0, tasks0, rest, dup, dupHere)
    ensures w.num < Need(d, w.cur) && Size(w.ranges) > 0 ==> Ready(w, d, src, ranges0, tasks0, rest, dup, dupHere)
  {
    SoundPush(w.ranges, w.pending, w.tasks, ranges0, tasks0, src, dupHere, NextTask(w, d, src).meta);
    PushedCounts(w, d, src, rest, dup);
    assert w.num < Need(d, w.cur) ==> Counted(w, d, rest, dup);
    hide Sound, Counted;
  }

  lemma DupSettles(before: Work, d: Dest, src: nat, ranges0: RangeList, tasks0: seq<Task>,
                   rest: nat, dup: bool, dupHere: bool)
    requires Ready(before, d, src, ranges0, tasks0, rest, dup, dupHere)
    requires before.cur < d.m && before.ranges != [] && Need(d, before.cur) == 0
    ensures before.num == 0 && Ordered(before.ranges)
    ensures var start := before.ranges[0].start;
            && start > 0
            && Compacted([Range(start, start - 1)]) == [Range(start - 1, start)]
            && Ready(before.(pending := [],
                             tasks := before.tasks + [Task([Range(start - 1, start)], Meta(d.epoch, src, before.cur))],
                             cur := before.cur + 1), d, src, ranges0, tasks0, rest, true, true)
  {
    var start := before.ranges[0].start;
    var meta := Meta(d.epoch, src, before.cur);
    DupCounts(before, d, rest, dup, Task([Range(start - 1, start)], meta));
    SoundDup(before.ranges, before.tasks, ranges0, tasks0, src, dupHere, meta, start);
    hide Sound, Counted;
  }

  /** One leaving master gives away all its slots. */
  method DrainSource(w0: Work, d: Dest, src: nat, n: nat, ghost rest: nat, ghost dup: bool)
    returns (w: Work, ghost dupHere: bool)
    requires w0.pending == [] && Counted(w0, d, rest, dup) && Canonical(w0.ranges)
    requires w0.ranges != [] ==> w0.ranges[0].start > 0
    requires d.m <= src < n && GoodTasks(w0.tasks, n, d)
    ensures w.ranges == [] && w.pending == []
    ensures Ready(w, d, src, w0.ranges, w0.tasks, rest, dup || dupHere, dupHere)
    ensures GoodTasks(w.tasks, n, d)
  {
    w, dupHere := w0, false;
    EmptyList();
    while w.cur != d.m
      invariant Ready(w, d, src, w0.ranges, w0.tasks, rest, dup || dupHere, dupHere)
      invariant GoodTasks(w.tasks, n, d) && (w.ranges == [] ==> w.pending == [])
      decreases d.m - w.cur, Size(w.ranges)
    {
      SizeZero(w.ranges);
      if SlotsNum(w.ranges) == 0 {
        break;
      }
      ghost var before := w;
      w := TakePiece(w, d, src, w0.ranges, w0.tasks, rest, dup || dupHere, dupHere);
      ghost var full;
      w, full := Settle(w, d, src, n, before, w0.ranges, w0.tasks, rest, dup || dupHere, dupHere);
      dupHere := dupHere || full;
    }
    NeedSumStep(d, w.cur);
    SizeZero(w.ranges);
  }

  // ----- all sources -----

  ghost function SizeRest(parts: seq<Part>, i: nat): nat
    decreases |parts| - i
  {
    if i >= |parts| then 0 else Size(Stored(parts[i].stable)) + SizeRest(parts, i + 1)
  }

  ghost predicate Doubled(parts0: seq<Part>, parts: seq<Part>, tasks: seq<Task>, k: nat, s: nat)
    requires k < |parts0| == |parts|
  {
    Cover(Stored(parts0[k].stable), s) < Cover(Stored(parts[k].stable), s) + TaskCover(From(tasks, k), s)
  }

  /** Per source nothing is lost, and something is doubled exactly if `dup`. */
  ghost predicate PlanCovers(parts0: seq<Part>, parts: seq<Part>, tasks: seq<Task>, dup: bool)
    requires |parts0| == |parts|
  {
    && (forall k, s: nat :: 0 <= k < |parts| ==>
          Cover(Stored(parts0[k].stable), s) <= Cover(Stored(parts[k].stable), s) + TaskCover(From(tasks, k), s))
    && (!dup ==> PlanConserves(parts0, parts, tasks))
    && (dup ==> exists k, s: nat :: 0 <= k < |parts| && Doubled(parts0, parts, tasks, k, s))
  }

  /** The leaving masters before `i` are drained and the rest untouched. */
  ghost predicate Drained(parts0: seq<Part>, parts: seq<Part>, m: nat, i: nat) {
    && |parts| == |parts0|
    && (forall k :: m <= k < i && k < |parts| ==> parts[k] == parts0[k].(stable := None))
    && (forall k :: 0 <= k < |parts| && (k < m || i <= k) ==> parts[k] == parts0[k])
  }

  ghost predicate DrainedSlots(parts0: seq<Part>, parts: seq<Part>, d: Dest, tasks: seq<Task>, i: nat, dup: bool) {
    && Drained(parts0, parts, d.m, i)
    && GoodTasks(tasks, |parts0|, d)
    && PlanCovers(parts0, parts, tasks, dup)
    && (forall k: nat :: k < d.m || i <= k ==> From(tasks, k) == [])
  }

  lemma SourceTasks(tasks0: seq<Task>, tasks: seq<Task>, src: nat, k: nat)
    requires tasks0 <= tasks && forall j :: |tasks0| <= j < |tasks| ==> tasks[j].meta.src == src
    ensures From(tasks, k) == From(tasks0, k) + if k == src then tasks[|tasks0|..] else []
  {
    var more := tasks[|tasks0|..];
    assert tasks == tasks0 + more;
    FromAppend(tasks0, more, k);
    FromOne(more, src, k);
  }

  lemma DrainedStep(parts0: seq<Part>, parts: seq<Part>, d: Dest, tasks0: seq<Task>, tasks: seq<Task>, i: nat,
                    dup: bool, dupHere: bool)
    requires DrainedSlots(parts0, parts, d, tasks0, i, dup) && d.m <= i < |parts0|
    requires Sound([], [], tasks, Stored(parts0[i].stable), tasks0, i, dupHere)
    requires GoodTasks(tasks, |parts0|, d)
    ensures DrainedSlots(parts0, parts[i := parts[i].(stable := None)], d, tasks, i + 1, dup || dupHere)
  {
    var parts', more, r0 := parts[i := parts[i].(stable := None)], tasks[|tasks0|..], Stored(parts0[i].stable);
    forall k: nat ensures From(tasks, k) == From(tasks0, k) + if k == i then more else [] {
      SourceTasks(tasks0, tasks, i, k);
    }
    forall s: nat ensures TaskCover(tasks, s) == TaskCover(tasks0, s) + TaskCover(more, s) {
      assert tasks == tasks0 + more;
      TaskCoverAppend(tasks0, more, s);
    }
    assert From(tasks, i) == more && Stored(parts'[i].stable) == [];
    assert Covered(r0, tasks0, [], [], tasks, dupHere);
    hide PlanCovers, Covered, Sound, GoodTasks, Planning.From, ClusterState.TaskCover, Ranges.Cover;
    PlanCoversStep(parts0, parts, parts', tasks0, tasks, i, dup, dupHere);
  }

  lemma PlanCoversStep(parts0: seq<Part>, parts: seq<Part>, parts': seq<Part>, tasks0: seq<Task>, tasks: seq<Task>,
                       i: nat, dup: bool, dupHere: bool)
    requires |parts0| == |parts| && i < |parts| && parts[i] == parts0[i]
    requires parts' == parts[i := parts[i].(stable := None)]
    requires PlanCovers(parts0, parts, tasks0, dup) && From(tasks0, i) == []
    requires forall k: nat :: k != i ==> From(tasks, k) == From(tasks0, k)
    requires Covered(Stored(parts0[i].stable), tasks0, [], [], tasks, dupHere)
    requires forall s: nat :: TaskCover(tasks, s) == TaskCover(tasks0, s) + TaskCover(From(tasks, i), s)
    ensures PlanCovers(parts0, parts', tasks, dup || dupHere)
  {
    var r0 := Stored(parts0[i].stable);
    forall s: nat
      ensures Cover(r0, s) <= Cover(Stored(parts'[i].stable), s) + TaskCover(From(tasks, i), s)
      ensures !dupHere ==> Cover(r0, s) == Cover(Stored(parts'[i].stable), s) + TaskCover(From(tasks, i), s)
    {
      assert Cover(r0, s) + TaskCover(tasks0, s) <= Cover([], s) + Cover([], s) + TaskCover(tasks, s);
    }
    if dupHere {
      var s: nat :| Cover(r0, s) + TaskCover(tasks0, s) < Cover([], s) + Cover([], s) + TaskCover(tasks, s);
      assert Doubled(parts0, parts', tasks, i, s);
    } else if dup {
      var k, s: nat :| 0 <= k < |parts| && Doubled(parts0, parts, tasks0, k, s);
      assert k != i && Doubled(parts0, parts', tasks, k, s);
    }
  }

  /** What the planner may assume: destinations want exactly what the leaving
      masters hold, and slot 0 is not among it. */
  ghost predicate Plannable(parts0: seq<Part>, d: Dest) {
    && Sane(d) && d.m < |parts0|
    && (forall i :: 0 <= i < |parts0| ==> parts0[i].stable.Some? && Canonical(parts0[i].stable.value))
    && (forall i :: d.m <= i < |parts0| ==> parts0[i].stable.value != [] && parts0[i].stable.value[0].start > 0)
    && SizeRest(parts0, d.m) == NeedSum(d, 0)
  }

  /** The outer loops: every leaving master is drained, then set to hold nothing. */
  method DrainAll(parts0: seq<Part>, d: Dest) returns (parts: seq<Part>, tasks: seq<Task>, ghost dup: bool)
    requires Plannable(parts0, d)
    ensures DrainedSlots(parts0, parts, d, tasks, |parts0|, dup)
    ensures dup <==> FullBeforeNeedy(d)
    ensures !dup ==> forall j :: 0 <= j < d.m ==> SizeTo(tasks, j) == Need(d, j)
  {
    hide PlanCovers, From, Filled, NeedSum, Need, FullBeforeNeedy, TaskCover, GoodTasks, SizeTo, Size, Covered;
    parts, dup := parts0, false;
    var w := Work([], [], 0, 0, []);
    var i := d.m;
    StartDraining(parts0, d);
    while i < |parts0|
      invariant d.m <= i <= |parts0| && w.pending == [] && w.ranges == []
      invariant DrainedSlots(parts0, parts, d, w.tasks, i, dup)
      invariant Counted(w, d, SizeRest(parts0, i), dup)
    {
      ghost var tasks0, dupHere := w.tasks, false;
      if parts[i].stable.Some? {
        NextSource(parts0, parts, w, d, i, dup);
        w, dupHere := DrainSource(w.(ranges := parts[i].stable.value), d, i, |parts0|, SizeRest(parts0, i + 1), dup);
      }
      DrainedStep(parts0, parts, d, tasks0, w.tasks, i, dup, dupHere);
      parts := parts[i := parts[i].(stable := None)];
      dup := dup || dupHere;
      i := i + 1;
    }
    tasks := w.tasks;
    AllNeedsMet(w, d, dup);
  }

  lemma StartDraining(parts0: seq<Part>, d: Dest)
    requires Plannable(parts0, d)
    ensures DrainedSlots(parts0, parts0, d, [], d.m, false)
    ensures Counted(Work([], [], 0, 0, []), d, SizeRest(parts0, d.m), false)
  {
    EmptyList();
  }

  lemma NextSource(parts0: seq<Part>, parts: seq<Part>, w: Work, d: Dest, i: nat, dup: bool)
    requires Plannable(parts0, d) && d.m <= i < |parts0|
    requires DrainedSlots(parts0, parts, d, w.tasks, i, dup)
    requires w.ranges == [] && w.pending == [] && Counted(w, d, SizeRest(parts0, i), dup)
    ensures parts[i] == parts0[i]
    ensures Counted(w.(ranges := parts[i].stable.value), d, SizeRest(parts0, i + 1), dup)
    ensures GoodTasks(w.tasks, |parts0|, d)
  {
    EmptyList();
    assert SizeRest(parts0, i) == Size(Stored(parts0[i].stable)) + SizeRest(parts0, i + 1);
  }

  lemma AllNeedsMet(w: Work, d: Dest, dup: bool)
    requires Counted(w, d, 0, dup) && w.ranges == [] && w.pending == []
    ensures dup <==> FullBeforeNeedy(d)
    ensures !dup ==> forall j :: 0 <= j < d.m ==> SizeTo(w.tasks, j) == Need(d, j)
  {
    EmptyList();
    NeedSumStep(d, w.cur);
    assert w.num == 0 && NeedSum(d, w.cur) == 0;
    forall j | w.cur <= j < d.m ensures Need(d, j) == 0 {
      NeedSumMember(d, w.cur, j);
    }
  }

  // ----- the planner's assumptions follow from the invariant -----

  lemma OthersStartLater(parts: seq<Part>, i: nat)
    requires Partition(parts) && NoEntries(parts) && Rooted(parts) && 0 < i < |parts|
    requires parts[0].stable.Some? && Canonical(parts[0].stable.value)
    requires parts[i].stable.Some? && parts[i].stable.value != [] && Canonical(parts[i].stable.value)
    ensures parts[i].stable.value[0].start > 0
  {
    if parts[i].stable.value[0].start == 0 {
      assert Holds(parts[0].stable.value[0], 0) && Holds(parts[i].stable.value[0], 0);
      CoverWitness(parts[0].stable.value, 0);
      CoverWitness(parts[i].stable.value, 0);
      StableCoverTwo(parts, 0, i, 0);
      assert false;
    }
  }

  lemma {:induction false} SizeRestIsShareSum(parts: seq<Part>, old_: nat, i: nat)
    requires 0 < old_ == |parts|
    requires forall k :: 0 <= k < |parts| ==> Size(Stored(parts[k].stable)) == Share(old_, k)
    ensures SizeRest(parts, i) == ShareSum(old_, i, old_)
    decreases |parts| - i
  {
    if i < |parts| {
      hide Share;
      SizeRestIsShareSum(parts, old_, i + 1);
    }
  }

  /** The destinations lack what `Shares.Lack` says. */
  ghost predicate Lacking(d: Dest, old_: nat) {
    && Sane(d) && d.m <= old_
    && forall j :: 0 <= j < d.m ==> Need(d, j) == Lack(old_, d.m, j)
  }

  lemma {:induction false} NeedSumIsLackSum(d: Dest, old_: nat, a: nat)
    requires Lacking(d, old_)
    ensures NeedSum(d, a) == LackSum(old_, d.m, a)
    decreases d.m - a
  {
    if a < d.m {
      hide Lack;
      NeedSumIsLackSum(d, old_, a + 1);
    }
  }

  lemma RestIsPlannable(parts: seq<Part>, epoch: nat, d: Dest)
    requires SlotsInv(parts, epoch) && NoEntries(parts) && Balanced(parts, |parts|)
    requires Lacking(d, |parts|) && d.m < |parts|
    ensures Plannable(parts, d)
  {
    forall i | 0 <= i < |parts|
      ensures Size(Stored(parts[i].stable)) == Share(|parts|, i)
      ensures parts[i].stable.Some? && Canonical(parts[i].stable.value) && parts[i].stable.value != []
    {
      RestShares(parts, epoch, |parts|, i);
      assert GoodPart(parts[i], i, |parts|, epoch);
    }
    forall i | d.m <= i < |parts| ensures parts[i].stable.value[0].start > 0 {
      OthersStartLater(parts, i);
    }
    hide Share, ShareSum, Lack, LackSum, NeedSum;
    SizeRestIsShareSum(parts, |parts|, d.m);
    NeedSumIsLackSum(d, |parts|, 0);
    LackTotal(|parts|, d.m);
  }

  lemma SafeMeansNotFull(d: Dest, old_: nat)
    requires Lacking(d, old_) && d.m < old_ <= SLOT_NUM
    ensures ScaleDownSafe(old_, d.m) <==> !FullBeforeNeedy(d)
  {
    ScaleDownSafeExact(old_, d.m);
    hide Lack, ScaleDownSafe, Need;
    if FullBeforeNeedy(d) {
      var j, k :| 0 <= j < k < d.m && Need(d, j) == 0 && Need(d, k) > 0;
      assert Lack(old_, d.m, j) == 0 && Lack(old_, d.m, k) > 0;
    }
    if !NoFullBeforeLacking(old_, d.m) {
      var j, k :| 0 <= j < k < d.m && Lack(old_, d.m, j) == 0 && Lack(old_, d.m, k) != 0;
      assert Need(d, j) == 0 && Need(d, k) > 0;
    }
  }

  // ----- the whole operation -----

  lemma DrainedIsGoodPlan(parts0: seq<Part>, parts: seq<Part>, d: Dest, tasks: seq<Task>, epoch0: nat)
    requires SlotsInv(parts0, epoch0) && NoEntries(parts0) && 0 < d.m < |parts0|
    requires DrainedSlots(parts0, parts, d, tasks, |parts0|, false)
    ensures GoodPlan(parts0, parts, tasks, d.epoch)
  {
    forall i | 0 <= i < |parts| && parts[i].stable.Some?
      ensures parts[i].stable.value != [] && Canonical(parts[i].stable.value)
    {
      assert GoodPart(parts0[i], i, |parts0|, epoch0);
    }
  }

  lemma {:induction false} SizeToOutside(ts: seq<Task>, n: nat, d: Dest, j: nat)
    requires GoodTasks(ts, n, d) && d.m <= j
    ensures SizeTo(ts, j) == 0
  {
    if ts != [] {
      assert ts[0] in ts && forall t :: t in ts[1..] ==> t in ts;
      SizeToOutside(ts[1..], n, d, j);
    }
  }

  lemma DrainedIsBalanced(parts0: seq<Part>, parts: seq<Part>, d: Dest, tasks: seq<Task>, epoch: nat)
    requires GoodParts(parts0, epoch) && NoEntries(parts0) && Balanced(parts0, |parts0|)
    requires Lacking(d, |parts0|) && 0 < d.m < |parts0| && d.m % 2 == 0
    requires DrainedSlots(parts0, parts, d, tasks, |parts0|, false)
    requires forall j :: 0 <= j < d.m ==> SizeTo(tasks, j) == Need(d, j)
    ensures PlanBalanced(parts, tasks, d.m)
  {
    forall i | 0 <= i < |parts| ensures Size(Stored(parts[i].stable)) + SizeTo(tasks, i) == Share(d.m, i) {
      EmptyList();
      if i < d.m {
        RestShares(parts0, epoch, |parts0|, i);
        assert Need(d, i) == Lack(|parts0|, d.m, i);
        ShareAntitone(d.m, |parts0|, i);
      } else {
        SizeToOutside(tasks, |parts0|, d, i);
      }
    }
  }

  /** A doubled slot breaks the partition for good. */
  lemma DrainedIsBroken(parts0: seq<Part>, parts: seq<Part>, d: Dest, tasks: seq<Task>, epoch0: nat)
    requires SlotsInv(parts0, epoch0) && NoEntries(parts0) && 0 < d.m < |parts0|
    requires DrainedSlots(parts0, parts, d, tasks, |parts0|, true)
    ensures Placeable(tasks, |parts|) && !Partition(CompactParts(Assign(parts, tasks)))
  {
    assert |parts| == |parts0| && NoEntries(parts);
    var parts' := Assign(parts, tasks);
    assert CanonicalParts(parts') by {
      forall i | 0 <= i < |parts'|
        ensures parts'[i].stable.Some? ==> Canonical(parts'[i].stable.value)
        ensures forall e :: e in parts'[i].entries ==> Canonical(e.task.ranges)
      {
        AssignOuts(parts, tasks, i);
        assert GoodPart(parts0[i], i, |parts0|, epoch0);
        forall e | e in parts'[i].entries ensures Canonical(e.task.ranges) {
          AssignEntries(parts, tasks, i, e);
        }
      }
    }
    CompactPartsCanonical(parts');
    forall k, s: nat | 0 <= k < |parts|
      ensures Own(parts0[k], s) <= Own(parts'[k], s)
      ensures Doubled(parts0, parts, tasks, k, s) ==> Own(parts0[k], s) < Own(parts'[k], s)
    {
      AssignOuts(parts, tasks, k);
      assert Outs(parts'[k].entries) == From(tasks, k);
    }
    var k, s: nat :| 0 <= k < |parts| && Doubled(parts0, parts, tasks, k, s);
    OwnSumLess(parts0, parts', s, k);
    OwnSumIsCover(parts0, s);
    OwnSumIsCover(parts', s);
  }

  lemma {:induction false} OwnSumLess(a: seq<Part>, b: seq<Part>, s: nat, k: nat)
    requires |a| == |b| && forall i :: 0 <= i < |a| ==> Own(a[i], s) <= Own(b[i], s)
    ensures OwnSum(a, s) <= OwnSum(b, s)
    ensures k < |a| && Own(a[k], s) < Own(b[k], s) ==> OwnSum(a, s) < OwnSum(b, s)
  {
    if a != [] {
      OwnSumLess(a[..|a| - 1], b[..|a| - 1], s, k);
    }
  }

  method ExistingNums(parts: seq<Part>, m: nat, ghost epoch: nat) returns (existing: seq<nat>)
    requires m <= |parts| && GoodParts(parts, epoch)
    ensures |existing| == m && forall j :: 0 <= j < m ==> existing[j] == Size(Stored(parts[j].stable))
  {
    existing := [];
    var i := 0;
    while i < m
      invariant 0 <= i <= m && |existing| == i
      invariant forall j :: 0 <= j < i ==> existing[j] == Size(Stored(parts[j].stable))
    {
      assert GoodPart(parts[i], i, |parts|, epoch);
      EmptyList();
      existing := existing + [if parts[i].stable.Some? then SlotsNum(parts[i].stable.value) else 0];
      i := i + 1;
    }
  }

  lemma DestIsLacking(parts: seq<Part>, epoch: nat, d: Dest)
    requires GoodParts(parts, epoch) && NoEntries(parts) && Balanced(parts, |parts|) && 0 < d.m < |parts|
    requires |d.existing| == d.m && forall j :: 0 <= j < d.m ==> d.existing[j] == Size(Stored(parts[j].stable))
    requires forall j :: 0 <= j < d.m ==> Quota(d.average, d.remainder, j) == Share(Min(d.m, SLOT_NUM), j)
    ensures Lacking(d, |parts|)
  {
    forall j | 0 <= j < d.m
      ensures d.existing[j] <= Quota(d.average, d.remainder, j)
      ensures Quota(d.average, d.remainder, j) - d.existing[j] == Lack(|parts|, d.m, j)
    {
      RestShares(parts, epoch, |parts|, j);
      ShareAntitone(d.m, |parts|, j);
    }
  }

  /** Planning a scale-down to `m` masters succeeds exactly when `ScaleDownSafe`
      holds of the old and the new number of masters; otherwise some slot ends up
      in two places. */
  method PlanScaleDown(parts0: seq<Part>, m: nat, epoch: nat, ghost epoch0: nat) returns (parts: seq<Part>)
    requires SlotsInv(parts0, epoch0) && NoEntries(parts0)
    requires forall i :: 0 <= i < |parts0| ==> parts0[i].stable.Some?
    requires 0 < m < |parts0| && m % 2 == 0
    ensures |parts0| <= SLOT_NUM && |parts| == |parts0|
    ensures ScaleDownSafe(|parts0|, m) ==> SlotsInv(parts, epoch) && Started(parts0, parts, epoch, m)
    ensures !ScaleDownSafe(|parts0|, m) ==> !Partition(parts)
  {
    AllHold(parts0, epoch0);
    var average, remainder := AverageAndRemainder(m);
    var existing := ExistingNums(parts0, m, epoch0);
    var d := Dest(m, average, remainder, epoch, existing);
    DestIsLacking(parts0, epoch0, d);
    RestIsPlannable(parts0, epoch0, d);
    SafeMeansNotFull(d, |parts0|);
    assert GoodParts(parts0, epoch0);
    hide *;
    var parts1, tasks;
    ghost var dup;
    parts1, tasks, dup := DrainAll(parts0, d);
    if dup {
      DrainedIsBroken(parts0, parts1, d, tasks, epoch0);
    } else {
      DrainedIsGoodPlan(parts0, parts1, d, tasks, epoch0);
      DrainedIsBalanced(parts0, parts1, d, tasks, epoch0);
      PlanStarts(parts0, parts1, tasks, epoch0, epoch, m);
      PlanIsPlaceable(parts0, parts1, tasks, epoch);
    }
    parts := AssignDstSlots(parts1, tasks);
  }

  lemma AllHold(parts: seq<Part>, epoch: nat)
    requires SlotsInv(parts, epoch) && NoEntries(parts) && forall i :: 0 <= i < |parts| ==> parts[i].stable.Some?
    ensures Balanced(parts, |parts|)
  {
    var target :| Balanced(parts, target);
    RestShares(parts, epoch, target, |parts| - 1);
  }
}

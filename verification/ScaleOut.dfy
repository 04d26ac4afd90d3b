/** The scale-out planner: masters that hold slots give their highest slots to
    the empty chunks at the end (src/broker/migrate.rs, remove_slots_from_src). */
module ScaleOut {
  import opened Ranges
  import opened Shares
  import opened ClusterState
  import opened Planning

  /** `r` is what is left of `r0` after cutting slots off its high end. */
  ghost predicate FrontOf(r: RangeList, r0: RangeList) {
    && |r| <= |r0|
    && (forall i :: 0 <= i < |r| - 1 ==> r[i] == r0[i])
    && (r != [] ==> r[|r| - 1].start == r0[|r| - 1].start && r[|r| - 1].end <= r0[|r| - 1].end)
  }

  /** `a` splits into `b` and `c`: every slot of `a` is in exactly one of them. */
  ghost predicate Splits(a: RangeList, b: RangeList, c: RangeList) {
    forall s: nat :: Cover(a, s) == Cover(b, s) + Cover(c, s)
  }

  /** Takes up to `removeNum` slots off the last range. */
  method CutBack(ranges: RangeList, removeNum: nat) returns (rest: RangeList, piece: Range)
    requires Canonical(ranges) && ranges != [] && removeNum > 0
    ensures Canonical(rest) && FrontOf(rest, ranges)
    ensures piece.start <= piece.end && 0 < Width(piece) <= removeNum
    ensures Width(piece) == removeNum || Width(piece) == Width(ranges[|ranges| - 1])
    ensures Splits(ranges, rest, [piece])
    ensures Size(ranges) == Size(rest) + Width(piece)
  {
    var n := |ranges| - 1;
    var last := ranges[n];
    var num := last.end - last.start + 1;
    assert ranges == ranges[..n] + [last];
    SizeAppend(ranges[..n], [last]);
    if removeNum >= num {
      rest, piece := ranges[..n], last;
    } else {
      rest := ranges[n := Range(last.start, last.end - removeNum)];
      piece := Range(last.end - removeNum + 1, last.end);
      assert rest == ranges[..n] + [rest[n]];
      SizeAppend(ranges[..n], [rest[n]]);
    }
    forall s: nat ensures Cover(ranges, s) == Cover(rest, s) + Cover([piece], s) {
      CoverSnoc(ranges[..n], last, s);
      if removeNum < num {
        CoverSnoc(ranges[..n], rest[n], s);
      }
    }
  }

  /** The count master `i` must end with, given the average and remainder. */
  function Quota(average: nat, remainder: nat, i: nat): nat {
    average + if i < remainder then 1 else 0
  }

  ghost function QuotaSum(average: nat, remainder: nat, a: nat, b: nat): nat
    decreases b - a
  {
    if a >= b then 0 else Quota(average, remainder, a) + QuotaSum(average, remainder, a + 1, b)
  }

  lemma QuotaSumStep(average: nat, remainder: nat, a: nat, b: nat)
    ensures a < b ==> QuotaSum(average, remainder, a, b) ==
                      Quota(average, remainder, a) + QuotaSum(average, remainder, a + 1, b)
    ensures a >= b ==> QuotaSum(average, remainder, a, b) == 0
  {
  }

  lemma {:induction false} QuotaSumZero(average: nat, remainder: nat, a: nat, b: nat)
    requires Quota(average, remainder, a) == 0
    ensures QuotaSum(average, remainder, a, b) == 0
    decreases b - a
  {
    if a < b {
      QuotaSumZero(average, remainder, a + 1, b);
    }
  }

  ghost predicate PlanTask(t: Task, base: nat, m: nat, epoch: nat) {
    && t.ranges != [] && Canonical(t.ranges)
    && t.meta.src < base <= t.meta.dst < m && t.meta.epoch == epoch
  }

  ghost predicate PlanTasks(ts: seq<Task>, base: nat, m: nat, epoch: nat) {
    forall t :: t in ts ==> PlanTask(t, base, m, epoch)
  }

  /** Destinations before `cur` have their quota, destination `cur` has `num`
      slots of which `pending` are not yet in a task, later ones have none. */
  ghost predicate Filled(ts: seq<Task>, base: nat, average: nat, remainder: nat, cur: nat, num: nat, pending: nat) {
    && SizeTo(ts, base + cur) + pending == num
    && (forall j :: base <= j < base + cur ==> SizeTo(ts, j) == Quota(average, remainder, j))
    && (forall j :: base + cur < j ==> SizeTo(ts, j) == 0)
  }

  lemma FilledPush(ts: seq<Task>, t: Task, base: nat, average: nat, remainder: nat, cur: nat, num: nat, pending: nat)
    requires Filled(ts, base, average, remainder, cur, num, pending)
    requires t.meta.dst == base + cur && Size(t.ranges) == pending
    ensures Filled(ts + [t], base, average, remainder, cur, num, 0)
  {
    forall j ensures SizeTo(ts + [t], j) == SizeTo(ts, j) + if j == base + cur then pending else 0 {
      SizeToSnoc(ts, t, j);
    }
  }

  lemma FilledNext(ts: seq<Task>, base: nat, average: nat, remainder: nat, cur: nat, num: nat)
    requires Filled(ts, base, average, remainder, cur, num, 0) && num == Quota(average, remainder, base + cur)
    ensures Filled(ts, base, average, remainder, cur + 1, 0, 0)
  {
  }

  /** Slots in `r`, in `pending` and in the tasks together are those that were in
      `r0` and in the earlier tasks. */
  ghost predicate Conserved(r0: RangeList, ts0: seq<Task>, r: RangeList, pending: RangeList, ts: seq<Task>) {
    forall s: nat :: Cover(r0, s) + TaskCover(ts0, s) == Cover(r, s) + Cover(pending, s) + TaskCover(ts, s)
  }

  lemma ConservedCut(r0: RangeList, ts0: seq<Task>, r: RangeList, r': RangeList, piece: Range,
                     pending: RangeList, ts: seq<Task>)
    requires Conserved(r0, ts0, r, pending, ts) && Splits(r, r', [piece])
    requires forall s: nat :: Cover(r, s) + Cover(pending, s) <= Cover(r0, s)
    ensures Conserved(r0, ts0, r', pending + [piece], ts)
    ensures forall s: nat :: Cover(r', s) + Cover(pending + [piece], s) <= Cover(r0, s)
  {
    forall s: nat
      ensures Cover(r0, s) + TaskCover(ts0, s) == Cover(r', s) + Cover(pending + [piece], s) + TaskCover(ts, s)
      ensures Cover(r', s) + Cover(pending + [piece], s) <= Cover(r0, s)
    {
      CoverAppend(pending, [piece], s);
      assert Cover(r, s) == Cover(r', s) + Cover([piece], s);
      assert Cover(r, s) + Cover(pending, s) <= Cover(r0, s);
    }
  }

  /** Pending pieces of one source become a task. */
  lemma ConservedPush(r0: RangeList, ts0: seq<Task>, r: RangeList, pending: RangeList, ts: seq<Task>, meta: Meta)
    requires Conserved(r0, ts0, r, pending, ts) && Canonical(r0) && Ordered(pending)
    requires forall s: nat :: Cover(r, s) + Cover(pending, s) <= Cover(r0, s)
    ensures Conserved(r0, ts0, r, [], ts + [Task(Compacted(pending), meta)])
    ensures Size(Compacted(pending)) == Size(pending)
  {
    forall s: nat ensures Cover(pending, s) <= 1 {
      CanonicalCover(r0, s);
      assert Cover(r, s) + Cover(pending, s) <= Cover(r0, s);
    }
    CompactedDisjoint(pending);
    var t := Task(Compacted(pending), meta);
    forall s: nat
      ensures Cover(r0, s) + TaskCover(ts0, s) == Cover(r, s) + Cover([], s) + TaskCover(ts + [t], s)
    {
      TaskCoverSnoc(ts, t, s);
      assert Cover(t.ranges, s) == Cover(pending, s);
      assert Cover(r, s) + Cover(pending, s) <= Cover(r0, s);
    }
  }

  datatype Ctx = Ctx(src: nat, base: nat, m: nat, average: nat, remainder: nat, epoch: nat)

  /** The planner's working variables while one source is drained: its ranges,
      the pieces not yet in a task, the current destination and its count. */
  datatype Work = Work(ranges: RangeList, pending: RangeList, cur: nat, num: nat, tasks: seq<Task>)

  /** What holds of the slot lists while source `c.src` is being drained. */
  ghost predicate Sound(ranges: RangeList, pending: RangeList, tasks: seq<Task>,
                        ranges0: RangeList, tasks0: seq<Task>, c: Ctx)
  {
    && Canonical(ranges0) && Canonical(ranges) && Ordered(pending) && FrontOf(ranges, ranges0)
    && PlanTasks(tasks, c.base, c.m, c.epoch) && tasks0 <= tasks
    && (forall k :: |tasks0| <= k < |tasks| ==> tasks[k].meta.src == c.src)
    && Conserved(ranges0, tasks0, ranges, pending, tasks)
    && (forall s: nat :: Cover(ranges, s) + Cover(pending, s) <= Cover(ranges0, s))
  }

  /** What holds of the counts; `rest` is the surplus of the sources to come. */
  ghost predicate Counted(w: Work, c: Ctx, rest: nat) {
    && c.src < c.base && c.base + w.cur <= c.m
    && Quota(c.average, c.remainder, c.src) <= Size(w.ranges)
    && Size(w.ranges) - Quota(c.average, c.remainder, c.src) + rest ==
       QuotaSum(c.average, c.remainder, c.base + w.cur, c.m) - w.num
    && (w.num == 0 || w.num < Quota(c.average, c.remainder, c.base + w.cur))
    && Filled(w.tasks, c.base, c.average, c.remainder, w.cur, w.num, Size(w.pending))
    && (w.pending != [] ==> Quota(c.average, c.remainder, c.src) < Size(w.ranges))
  }

  lemma SoundCut(w: Work, ranges0: RangeList, tasks0: seq<Task>, c: Ctx, rest: RangeList, piece: Range)
    requires Sound(w.ranges, w.pending, w.tasks, ranges0, tasks0, c)
    requires Canonical(rest) && FrontOf(rest, w.ranges) && piece.start <= piece.end
    requires Splits(w.ranges, rest, [piece])
    ensures Sound(rest, w.pending + [piece], w.tasks, ranges0, tasks0, c)
  {
    ConservedCut(ranges0, tasks0, w.ranges, rest, piece, w.pending, w.tasks);
  }

  lemma SoundPush(w: Work, ranges0: RangeList, tasks0: seq<Task>, c: Ctx)
    requires Sound(w.ranges, w.pending, w.tasks, ranges0, tasks0, c)
    requires w.pending != [] && c.src < c.base && c.base + w.cur < c.m
    ensures Sound(w.ranges, [], w.tasks + [NextTask(w, c)], ranges0, tasks0, c)
    ensures Size(Compacted(w.pending)) == Size(w.pending)
  {
    ConservedPush(ranges0, tasks0, w.ranges, w.pending, w.tasks, NextTask(w, c).meta);
  }

  function NextTask(w: Work, c: Ctx): Task {
    Task(Compacted(w.pending), Meta(c.epoch, c.src, c.base + w.cur))
  }

  /** The counts between taking a piece and settling it. */
  ghost predicate Taken(w: Work, c: Ctx, rest: nat) {
    && c.src < c.base && c.base + w.cur < c.m && w.pending != []
    && Quota(c.average, c.remainder, c.src) <= Size(w.ranges)
    && Size(w.ranges) - Quota(c.average, c.remainder, c.src) + rest ==
       QuotaSum(c.average, c.remainder, c.base + w.cur, c.m) - w.num
    && 0 < w.num <= Quota(c.average, c.remainder, c.base + w.cur)
    && Filled(w.tasks, c.base, c.average, c.remainder, w.cur, w.num, Size(w.pending))
  }

  lemma TakenAfterCut(w0: Work, w: Work, c: Ctx, rest: nat, piece: Range)
    requires Counted(w0, c, rest) && c.base + w0.cur < c.m
    requires w == Work(w.ranges, w0.pending + [piece], w0.cur, w0.num + Width(piece), w0.tasks)
    requires Size(w0.ranges) == Size(w.ranges) + Width(piece) && 0 < Width(piece)
    requires Quota(c.average, c.remainder, c.src) <= Size(w.ranges)
    requires w.num <= Quota(c.average, c.remainder, c.base + w.cur)
    ensures Taken(w, c, rest)
  {
    SizeAppend(w0.pending, [piece]);
    EmptyList();
  }

  /** Takes a piece off the source for the current destination. */
  method TakePiece(w0: Work, c: Ctx, ghost ranges0: RangeList, ghost tasks0: seq<Task>, ghost rest: nat)
    returns (w: Work)
    requires Sound(w0.ranges, w0.pending, w0.tasks, ranges0, tasks0, c) && Counted(w0, c, rest)
    requires w0.cur != c.m - c.base && Quota(c.average, c.remainder, c.src) < Size(w0.ranges)
    ensures Sound(w.ranges, w.pending, w.tasks, ranges0, tasks0, c) && Taken(w, c, rest)
    ensures Size(w.ranges) < Size(w0.ranges)
  {
    var srcFinalNum := Quota(c.average, c.remainder, c.src);
    var dstFinalNum := Quota(c.average, c.remainder, c.base + w0.cur);
    assert w0.num < dstFinalNum by {
      if dstFinalNum == 0 {
        QuotaSumZero(c.average, c.remainder, c.base + w0.cur, c.m);
      }
    }
    SizeZero(w0.ranges);
    var needNum := dstFinalNum - w0.num;
    var availableNum := SlotsNum(w0.ranges) - srcFinalNum;
    var removeNum := Min(needNum, availableNum);
    var ranges, piece := CutBack(w0.ranges, removeNum);
    w := Work(ranges, w0.pending + [piece], w0.cur, w0.num + (piece.end - piece.start + 1), w0.tasks);
    SoundCut(w0, ranges0, tasks0, c, ranges, piece);
    TakenAfterCut(w0, w, c, rest, piece);
  }

  lemma PushedCounts(w: Work, c: Ctx, rest: nat)
    requires Taken(w, c, rest) && Size(Compacted(w.pending)) == Size(w.pending)
    ensures var w' := w.(pending := [], tasks := w.tasks + [NextTask(w, c)]);
            if w.num < Quota(c.average, c.remainder, c.base + w.cur) then Counted(w', c, rest)
            else Counted(w'.(cur := w.cur + 1, num := 0), c, rest)
  {
    var tasks' := w.tasks + [NextTask(w, c)];
    FilledPush(w.tasks, NextTask(w, c), c.base, c.average, c.remainder, w.cur, w.num, Size(w.pending));
    EmptyList();
    QuotaSumStep(c.average, c.remainder, c.base + w.cur, c.m);
    if w.num == Quota(c.average, c.remainder, c.base + w.cur) {
      FilledNext(tasks', c.base, c.average, c.remainder, w.cur, w.num);
    }
    hide QuotaSum, Filled, Ranges.Size, Ranges.Compacted;
  }

  /** Emits a task once the destination is full or the source is done. */
  method Settle(w0: Work, c: Ctx, ghost ranges0: RangeList, ghost tasks0: seq<Task>, ghost rest: nat)
    returns (w: Work)
    requires Sound(w0.ranges, w0.pending, w0.tasks, ranges0, tasks0, c) && Taken(w0, c, rest)
    ensures Sound(w.ranges, w.pending, w.tasks, ranges0, tasks0, c) && Counted(w, c, rest)
    ensures w.ranges == w0.ranges
  {
    var srcFinalNum := Quota(c.average, c.remainder, c.src);
    var dstFinalNum := Quota(c.average, c.remainder, c.base + w0.cur);
    w := w0;
    if w.num >= dstFinalNum || SlotsNum(w.ranges) <= srcFinalNum {
      SoundPush(w, ranges0, tasks0, c);
      PushedCounts(w, c, rest);
      hide *;
      w := w.(pending := [], tasks := w.tasks + [NextTask(w, c)]);
      if w.num >= dstFinalNum {
        w := w.(cur := w.cur + 1, num := 0);
      }
    }
  }

  /** One source gives away its surplus, filling destinations in turn. */
  method DrainSource(w0: Work, c: Ctx, ghost rest: nat) returns (w: Work)
    requires w0.pending == [] && Counted(w0, c, rest)
    requires Canonical(w0.ranges) && PlanTasks(w0.tasks, c.base, c.m, c.epoch)
    ensures w.pending == [] && Sound(w.ranges, w.pending, w.tasks, w0.ranges, w0.tasks, c) && Counted(w, c, rest)
    ensures Size(w.ranges) == Quota(c.average, c.remainder, c.src)
  {
    w := w0;
    while w.cur != c.m - c.base
      invariant Sound(w.ranges, w.pending, w.tasks, w0.ranges, w0.tasks, c) && Counted(w, c, rest)
      decreases Size(w.ranges)
    {
      if SlotsNum(w.ranges) <= Quota(c.average, c.remainder, c.src) {
        break;
      }
      w := TakePiece(w, c, w0.ranges, w0.tasks, rest);
      w := Settle(w, c, w0.ranges, w0.tasks, rest);
    }
    QuotaSumStep(c.average, c.remainder, c.base + w.cur, c.m);
  }

  // ----- all sources -----

  /** What the masters from `i` up to `base` hold beyond their quotas. */
  ghost function SurplusSum(parts: seq<Part>, average: nat, remainder: nat, i: nat, base: nat): int
    requires base <= |parts|
    decreases base - i
  {
    if i >= base then 0
    else
      Size(Stored(parts[i].stable)) - Quota(average, remainder, i) + SurplusSum(parts, average, remainder, i + 1, base)
  }

  lemma SurplusStep(parts: seq<Part>, average: nat, remainder: nat, i: nat, base: nat)
    requires i < base <= |parts|
    ensures SurplusSum(parts, average, remainder, i, base) ==
            Size(Stored(parts[i].stable)) - Quota(average, remainder, i) +
            SurplusSum(parts, average, remainder, i + 1, base)
  {
  }

  lemma {:induction false} SurplusNotNegative(parts: seq<Part>, average: nat, remainder: nat, i: nat, base: nat)
    requires base <= |parts|
    requires forall k :: i <= k < base ==> Quota(average, remainder, k) <= Size(Stored(parts[k].stable))
    ensures SurplusSum(parts, average, remainder, i, base) >= 0
    decreases base - i
  {
    if i < base {
      SurplusNotNegative(parts, average, remainder, i + 1, base);
    }
  }

  /** Master `k` kept exactly its quota, the lowest of its slots. */
  ghost predicate Trimmed(p0: Part, p: Part, quota: nat) {
    && p0.stable.Some? && p.stable.Some? && p.entries == p0.entries
    && Canonical(p.stable.value) && FrontOf(p.stable.value, p0.stable.value) && Size(p.stable.value) == quota
  }

  lemma PlanConservesStep(parts0: seq<Part>, parts: seq<Part>, w0: Work, w: Work, c: Ctx)
    requires |parts0| == |parts| && PlanConserves(parts0, parts, w0.tasks) && w.pending == []
    requires c.src < |parts0| && parts[c.src] == parts0[c.src] && From(w0.tasks, c.src) == []
    requires w0.ranges == Stored(parts0[c.src].stable) && Sound(w.ranges, w.pending, w.tasks, w0.ranges, w0.tasks, c)
    ensures PlanConserves(parts0, parts[c.src := parts[c.src].(stable := Some(w.ranges))], w.tasks)
    ensures forall k: nat :: k != c.src ==> From(w.tasks, k) == From(w0.tasks, k)
  {
    var new_ := w.tasks[|w0.tasks|..];
    assert w.tasks == w0.tasks + new_;
    forall k: nat ensures From(w.tasks, k) == From(w0.tasks, k) + if k == c.src then new_ else [] {
      FromAppend(w0.tasks, new_, k);
      FromOne(new_, c.src, k);
    }
    var parts' := parts[c.src := parts[c.src].(stable := Some(w.ranges))];
    forall k, s: nat | 0 <= k < |parts|
      ensures Cover(Stored(parts0[k].stable), s) == Cover(Stored(parts'[k].stable), s) + TaskCover(From(w.tasks, k), s)
    {
      if k == c.src {
        TaskCoverAppend(w0.tasks, new_, s);
        assert Cover(w0.ranges, s) + TaskCover(w0.tasks, s) ==
               Cover(w.ranges, s) + Cover([], s) + TaskCover(w.tasks, s);
        assert From(w.tasks, k) == new_;
      } else {
        assert From(w.tasks, k) == From(w0.tasks, k);
      }
    }
  }

  /** What the planner may assume of the parts it starts from: the masters that
      hold slots are the first `base`, and their surplus is what the others want. */
  ghost predicate Plannable(parts0: seq<Part>, base: nat, average: nat, remainder: nat) {
    && base <= |parts0|
    && (forall i :: 0 <= i < |parts0| ==> (parts0[i].stable.Some? <==> i < base))
    && (forall i :: 0 <= i < base ==> Canonical(parts0[i].stable.value))
    && (forall i :: 0 <= i < base ==> Quota(average, remainder, i) <= Size(parts0[i].stable.value))
    && SurplusSum(parts0, average, remainder, 0, base) == QuotaSum(average, remainder, base, |parts0|)
  }

  /** The parts before `i` are planned. */
  ghost predicate Planned(parts0: seq<Part>, base: nat, average: nat, remainder: nat, parts: seq<Part>, i: nat) {
    && |parts| == |parts0| && base <= |parts0|
    && (forall k :: 0 <= k < i && k < base ==> Trimmed(parts0[k], parts[k], Quota(average, remainder, k)))
    && (forall k :: 0 <= k < |parts0| && (i <= k || base <= k) ==> parts[k] == parts0[k])
  }

  /** The tasks planned so far take every slot of a planned part to one place. */
  ghost predicate PlannedSlots(parts0: seq<Part>, c: Ctx, parts: seq<Part>, tasks: seq<Task>) {
    && c.m == |parts0| && Planned(parts0, c.base, c.average, c.remainder, parts, c.src)
    && PlanTasks(tasks, c.base, c.m, c.epoch)
    && PlanConserves(parts0, parts, tasks)
    && (forall k: nat :: c.src <= k ==> From(tasks, k) == [])
  }

  /** The surplus of the parts to come is what the destinations still want. */
  ghost predicate PlannedCounts(parts0: seq<Part>, c: Ctx, cur: nat, num: nat, tasks: seq<Task>) {
    && c.m == |parts0| && c.base + cur <= c.m
    && SurplusSum(parts0, c.average, c.remainder, c.src, c.base) ==
       QuotaSum(c.average, c.remainder, c.base + cur, c.m) - num
    && (num == 0 || num < Quota(c.average, c.remainder, c.base + cur))
    && Filled(tasks, c.base, c.average, c.remainder, cur, num, 0)
  }

  lemma StartPlanning(parts0: seq<Part>, c: Ctx)
    requires Plannable(parts0, c.base, c.average, c.remainder) && c.src == 0 && c.m == |parts0|
    ensures PlannedSlots(parts0, c, parts0, []) && PlannedCounts(parts0, c, 0, 0, [])
  {
  }

  lemma SkipEmptyPart(parts0: seq<Part>, c: Ctx, parts: seq<Part>, cur: nat, num: nat, tasks: seq<Task>)
    requires PlannedSlots(parts0, c, parts, tasks) && PlannedCounts(parts0, c, cur, num, tasks) && c.base <= c.src
    ensures PlannedSlots(parts0, c.(src := c.src + 1), parts, tasks)
    ensures PlannedCounts(parts0, c.(src := c.src + 1), cur, num, tasks)
  {
  }

  lemma ReadyToDrain(parts0: seq<Part>, c: Ctx, w: Work, rest: nat)
    requires c.src < c.base <= |parts0| && w.pending == []
    requires PlannedCounts(parts0, c, w.cur, w.num, w.tasks)
    requires w.ranges == Stored(parts0[c.src].stable) && Quota(c.average, c.remainder, c.src) <= Size(w.ranges)
    requires rest == SurplusSum(parts0, c.average, c.remainder, c.src + 1, c.base)
    ensures Counted(w, c, rest)
  {
    SurplusStep(parts0, c.average, c.remainder, c.src, c.base);
  }

  lemma DrainedSlots(parts0: seq<Part>, c: Ctx, parts: seq<Part>, w0: Work, w: Work)
    requires Plannable(parts0, c.base, c.average, c.remainder) && c.src < c.base
    requires PlannedSlots(parts0, c, parts, w0.tasks)
    requires w0.ranges == parts[c.src].stable.value && w.pending == []
    requires Sound(w.ranges, w.pending, w.tasks, w0.ranges, w0.tasks, c)
    requires Size(w.ranges) == Quota(c.average, c.remainder, c.src)
    ensures PlannedSlots(parts0, c.(src := c.src + 1), parts[c.src := parts[c.src].(stable := Some(w.ranges))], w.tasks)
  {
    hide PlanConserves, PlanTasks, Conserved, Cover, Quota, From, Ordered;
    PlanConservesStep(parts0, parts, w0, w, c);
  }

  lemma DrainedCounts(parts0: seq<Part>, c: Ctx, w: Work)
    requires c.src < c.base <= |parts0| == c.m && w.pending == []
    requires SurplusSum(parts0, c.average, c.remainder, c.src + 1, c.base) >= 0
    requires Counted(w, c, SurplusSum(parts0, c.average, c.remainder, c.src + 1, c.base))
    requires Size(w.ranges) == Quota(c.average, c.remainder, c.src)
    ensures PlannedCounts(parts0, c.(src := c.src + 1), w.cur, w.num, w.tasks)
  {
    EmptyList();
  }

  /** One part that holds slots. */
  method DrainPart(parts0: seq<Part>, c: Ctx, parts: seq<Part>, cur: nat, num: nat, tasks: seq<Task>)
    returns (parts': seq<Part>, w: Work)
    requires Plannable(parts0, c.base, c.average, c.remainder) && c.src < c.base
    requires PlannedSlots(parts0, c, parts, tasks) && PlannedCounts(parts0, c, cur, num, tasks)
    ensures PlannedSlots(parts0, c.(src := c.src + 1), parts', w.tasks)
    ensures PlannedCounts(parts0, c.(src := c.src + 1), w.cur, w.num, w.tasks)
  {
    SurplusNotNegative(parts0, c.average, c.remainder, c.src + 1, c.base);
    assert parts[c.src] == parts0[c.src] && Canonical(parts0[c.src].stable.value);
    var w0 := Work(parts[c.src].stable.value, [], cur, num, tasks);
    ReadyToDrain(parts0, c, w0, SurplusSum(parts0, c.average, c.remainder, c.src + 1, c.base));
    hide PlannedSlots, PlannedCounts, Counted, Sound;
    w := DrainSource(w0, c, SurplusSum(parts0, c.average, c.remainder, c.src + 1, c.base));
    DrainedSlots(parts0, c, parts, w0, w);
    DrainedCounts(parts0, c, w);
    parts' := parts[c.src := parts[c.src].(stable := Some(w.ranges))];
  }

  /** The planner's outer loops over every part; those past `base` hold no slots. */
  method DrainAll(parts0: seq<Part>, base: nat, average: nat, remainder: nat, epoch: nat)
    returns (parts: seq<Part>, tasks: seq<Task>)
    requires Plannable(parts0, base, average, remainder)
    ensures Planned(parts0, base, average, remainder, parts, base)
    ensures PlanTasks(tasks, base, |parts0|, epoch)
    ensures PlanConserves(parts0, parts, tasks)
    ensures forall j :: base <= j < |parts0| ==> SizeTo(tasks, j) == Quota(average, remainder, j)
  {
    parts := parts0;
    var c := Ctx(0, base, |parts0|, average, remainder, epoch);
    var w := Work([], [], 0, 0, []);
    StartPlanning(parts0, c);
    while c.src < |parts0|
      invariant c == Ctx(c.src, base, |parts0|, average, remainder, epoch) && c.src <= |parts0|
      invariant PlannedSlots(parts0, c, parts, w.tasks) && PlannedCounts(parts0, c, w.cur, w.num, w.tasks)
    {
      hide PlannedCounts, PlanTasks, PlanConserves;
      if parts[c.src].stable.Some? {
        parts, w := DrainPart(parts0, c, parts, w.cur, w.num, w.tasks);
      } else {
        SkipEmptyPart(parts0, c, parts, w.cur, w.num, w.tasks);
      }
      c := c.(src := c.src + 1);
    }
    tasks := w.tasks;
    FilledAll(tasks, base, average, remainder, w.cur, w.num, |parts0|);
  }

  /** When nothing is left to place, every destination has its quota. */
  lemma FilledAll(tasks: seq<Task>, base: nat, average: nat, remainder: nat, cur: nat, num: nat, m: nat)
    requires Filled(tasks, base, average, remainder, cur, num, 0) && base + cur <= m
    requires QuotaSum(average, remainder, base + cur, m) == num
    requires num == 0 || num < Quota(average, remainder, base + cur)
    ensures forall j :: base <= j < m ==> SizeTo(tasks, j) == Quota(average, remainder, j)
  {
    QuotaSumStep(average, remainder, base + cur, m);
    forall j | base + cur <= j < m ensures SizeTo(tasks, j) == Quota(average, remainder, j) {
      QuotaSumMember(average, remainder, base + cur, m, j);
    }
  }

  lemma {:induction false} QuotaSumMember(average: nat, remainder: nat, a: nat, b: nat, j: nat)
    requires a <= j < b
    ensures Quota(average, remainder, j) <= QuotaSum(average, remainder, a, b)
    decreases b - a
  {
    if a < j {
      QuotaSumMember(average, remainder, a + 1, b, j);
    }
  }

  // ----- the planner's assumptions follow from the invariant -----

  lemma QuotaIsShare(m: nat, i: nat)
    requires i < m
    ensures SLOT_NUM - (SLOT_NUM / m) * m >= 0
    ensures Quota(SLOT_NUM / m, SLOT_NUM - (SLOT_NUM / m) * m, i) == Share(Min(m, SLOT_NUM), i)
  {
    Remainder(m);
    FinalIsShare(m, i);
  }

  lemma {:induction false} QuotaSumIsShareSum(average: nat, remainder: nat, target: nat, a: nat, m: nat)
    requires target > 0 && forall i :: 0 <= i < m ==> Quota(average, remainder, i) == Share(target, i)
    ensures QuotaSum(average, remainder, a, m) == ShareSum(target, a, m)
    decreases m - a
  {
    if a < m {
      QuotaSumIsShareSum(average, remainder, target, a + 1, m);
    }
  }

  lemma {:induction false} SurplusIsDifference(parts: seq<Part>, average: nat, remainder: nat, target: nat,
                                               i: nat, base: nat)
    requires target > 0 && 0 < base <= |parts|
    requires forall k :: 0 <= k < base ==> Quota(average, remainder, k) == Share(target, k)
    requires forall k :: 0 <= k < base ==> Size(Stored(parts[k].stable)) == Share(base, k)
    ensures SurplusSum(parts, average, remainder, i, base) == ShareSum(base, i, base) - ShareSum(target, i, base)
    decreases base - i
  {
    if i < base {
      hide Share;
      SurplusIsDifference(parts, average, remainder, target, i + 1, base);
    }
  }

  /** A balanced cluster at rest meets the planner's assumptions. */
  lemma RestIsPlannable(parts: seq<Part>, epoch: nat, base: nat, average: nat, remainder: nat)
    requires GoodParts(parts, epoch) && NoEntries(parts) && Balanced(parts, base)
    requires forall i :: 0 <= i < |parts| ==> Quota(average, remainder, i) == Share(Min(|parts|, SLOT_NUM), i)
    ensures Plannable(parts, base, average, remainder)
  {
    var m, target := |parts|, Min(|parts|, SLOT_NUM);
    forall i | 0 <= i < m
      ensures Size(Stored(parts[i].stable)) == Share(base, i)
      ensures parts[i].stable.Some? <==> i < base
      ensures i < base ==> Share(target, i) <= Share(base, i)
      ensures parts[i].stable.Some? ==> Canonical(parts[i].stable.value)
    {
      RestShares(parts, epoch, base, i);
      assert GoodPart(parts[i], i, m, epoch);
      if i < base {
        ShareAntitone(base, target, i);
      }
    }
    hide Share, ShareSum, QuotaSum, SurplusSum;
    SurplusIsDifference(parts, average, remainder, target, 0, base);
    QuotaSumIsShareSum(average, remainder, target, base, m);
    ShareTotal(base, base);
    ShareTotal(target, m);
    ShareSumSplit(target, 0, base, m);
  }

  /** The number of chunks whose two parts hold no stable slots. */
  method CountEmptyChunks(parts: seq<Part>, ghost epoch: nat, ghost target: nat) returns (n: nat)
    requires |parts| % 2 == 0 && GoodParts(parts, epoch) && NoEntries(parts) && Balanced(parts, target)
    ensures 2 * n == |parts| - target
  {
    n := 0;
    var c := 0;
    while 2 * c < |parts|
      invariant 0 <= 2 * c <= |parts|
      invariant 2 * n == if 2 * c <= target then 0 else 2 * c - target
    {
      RestShares(parts, epoch, target, 2 * c);
      RestShares(parts, epoch, target, 2 * c + 1);
      if parts[2 * c].stable.None? && parts[2 * c + 1].stable.None? {
        n := n + 1;
      }
      c := c + 1;
    }
  }

  lemma TrimmedRoot(parts0: seq<Part>, parts: seq<Part>, quota: nat)
    requires Rooted(parts0) && |parts| == |parts0| && Trimmed(parts0[0], parts[0], quota) && quota > 0
    ensures Rooted(parts)
  {
    SizeZero(parts[0].stable.value);
  }

  /** The plan is good: every source keeps its quota, never nothing. */
  lemma DrainedIsGoodPlan(parts0: seq<Part>, parts: seq<Part>, tasks: seq<Task>, base: nat,
                          average: nat, remainder: nat, epoch0: nat, epoch: nat)
    requires SlotsInv(parts0, epoch0) && NoEntries(parts0) && Balanced(parts0, base)
    requires forall i :: 0 <= i < |parts0| ==> Quota(average, remainder, i) == Share(Min(|parts0|, SLOT_NUM), i)
    requires Plannable(parts0, base, average, remainder)
    requires Planned(parts0, base, average, remainder, parts, base)
    requires PlanTasks(tasks, base, |parts0|, epoch) && PlanConserves(parts0, parts, tasks)
    ensures GoodPlan(parts0, parts, tasks, epoch)
  {
    var target := Min(|parts0|, SLOT_NUM);
    forall i | 0 <= i < base ensures Quota(average, remainder, i) > 0 {
      SharePositive(target, i);
    }
    TrimmedRoot(parts0, parts, Quota(average, remainder, 0));
    forall i | 0 <= i < |parts| && parts[i].stable.Some?
      ensures parts[i].stable.value != [] && Canonical(parts[i].stable.value)
    {
      assert i < base;
      SizeZero(parts[i].stable.value);
    }
  }

  lemma {:induction false} SizeToOutside(ts: seq<Task>, base: nat, m: nat, epoch: nat, j: nat)
    requires PlanTasks(ts, base, m, epoch) && j < base
    ensures SizeTo(ts, j) == 0
  {
    if ts != [] {
      assert ts[0] in ts && forall t :: t in ts[1..] ==> t in ts;
      SizeToOutside(ts[1..], base, m, epoch, j);
    }
  }

  lemma DrainedIsBalanced(parts0: seq<Part>, parts: seq<Part>, tasks: seq<Task>, base: nat,
                          average: nat, remainder: nat, epoch: nat)
    requires |parts0| % 2 == 0 && 0 < |parts0|
    requires forall i :: 0 <= i < |parts0| ==> Quota(average, remainder, i) == Share(Min(|parts0|, SLOT_NUM), i)
    requires Plannable(parts0, base, average, remainder)
    requires Planned(parts0, base, average, remainder, parts, base)
    requires PlanTasks(tasks, base, |parts0|, epoch)
    requires forall j :: base <= j < |parts0| ==> SizeTo(tasks, j) == Quota(average, remainder, j)
    ensures PlanBalanced(parts, tasks, Min(|parts0|, SLOT_NUM))
  {
    forall i | 0 <= i < |parts|
      ensures Size(Stored(parts[i].stable)) + SizeTo(tasks, i) == Share(Min(|parts0|, SLOT_NUM), i)
    {
      if i < base {
        SizeToOutside(tasks, base, |parts0|, epoch, i);
      } else {
        EmptyList();
      }
    }
  }

  method AverageAndRemainder(m: nat) returns (average: nat, remainder: nat)
    requires m > 0
    ensures forall i :: 0 <= i < m ==> Quota(average, remainder, i) == Share(Min(m, SLOT_NUM), i)
  {
    Remainder(m);
    average := SLOT_NUM / m;
    remainder := SLOT_NUM - average * m;
    forall i | 0 <= i < m ensures Quota(average, remainder, i) == Share(Min(m, SLOT_NUM), i) {
      QuotaIsShare(m, i);
    }
  }

  ghost predicate KeepsLowest(parts0: seq<Part>, parts: seq<Part>) {
    && |parts| == |parts0|
    && forall i :: 0 <= i < |parts| && parts0[i].stable.Some? ==>
         parts[i].stable.Some? && FrontOf(parts[i].stable.value, parts0[i].stable.value)
  }

  lemma DrainedKeepsLowest(parts0: seq<Part>, parts: seq<Part>, tasks: seq<Task>, base: nat,
                           average: nat, remainder: nat, epoch: nat)
    requires Plannable(parts0, base, average, remainder)
    requires Planned(parts0, base, average, remainder, parts, base)
    requires GoodPlan(parts0, parts, tasks, epoch)
    ensures KeepsLowest(parts0, CompactParts(Assign(parts, tasks)))
  {
    AssignGood(parts0, parts, tasks, epoch);
    forall i | 0 <= i < |parts| && parts0[i].stable.Some?
      ensures Assign(parts, tasks)[i].stable.Some?
      ensures FrontOf(Assign(parts, tasks)[i].stable.value, parts0[i].stable.value)
    {
      AssignOuts(parts, tasks, i);
    }
  }

  /** Planning a scale-out: from any balanced cluster at rest, whatever the number
      of empty chunks, the plan starts a migration that ends balanced over all
      masters (or over SLOT_NUM masters if there are more). */
  method PlanScaleOut(parts0: seq<Part>, epoch: nat, ghost epoch0: nat) returns (parts: seq<Part>)
    requires SlotsInv(parts0, epoch0) && NoEntries(parts0)
    ensures SlotsInv(parts, epoch)
    ensures Started(parts0, parts, epoch, Min(|parts0|, SLOT_NUM))
    ensures KeepsLowest(parts0, parts)
  {
    ghost var target :| Balanced(parts0, target);
    var dstChunkNum := CountEmptyChunks(parts0, epoch0, target);
    var srcMasterNum := |parts0| - dstChunkNum * 2;
    var average, remainder := AverageAndRemainder(|parts0|);
    RestIsPlannable(parts0, epoch0, srcMasterNum, average, remainder);
    assert |parts0| % 2 == 0 && 0 < |parts0|;
    hide *;
    var parts1, tasks := DrainAll(parts0, srcMasterNum, average, remainder, epoch);
    DrainedIsGoodPlan(parts0, parts1, tasks, srcMasterNum, average, remainder, epoch0, epoch);
    DrainedIsBalanced(parts0, parts1, tasks, srcMasterNum, average, remainder, epoch);
    DrainedKeepsLowest(parts0, parts1, tasks, srcMasterNum, average, remainder, epoch);
    PlanStarts(parts0, parts1, tasks, epoch0, epoch, Min(|parts0|, SLOT_NUM));
    PlanIsPlaceable(parts0, parts1, tasks, epoch);
    parts := AssignDstSlots(parts1, tasks);
  }

  lemma PlanIsPlaceable(parts0: seq<Part>, parts: seq<Part>, tasks: seq<Task>, epoch: nat)
    requires GoodPlan(parts0, parts, tasks, epoch)
    ensures |parts| == |parts0| && Placeable(tasks, |parts|)
  {
  }
}

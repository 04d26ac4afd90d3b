/** The slot metadata of one cluster (src/broker/store.rs) and its invariant.

    Each chunk has two parts; part `p` of chunk `c` is stored here at master
    index 2 * c + p, and a migration names its two ends by master index. */
module ClusterState {
  import opened Ranges
  import opened Shares

  datatype Option<+T> = None | Some(value: T)

  datatype Meta = Meta(epoch: nat, src: nat, dst: nat)

  /** A planned migration: the ranges and where they go. */
  datatype Task = Task(ranges: RangeList, meta: Meta)

  /** A stored half of a migration: the migrating half sits at the source part,
      the importing half at the destination part. */
  datatype Entry = Entry(task: Task, migrating: bool)

  datatype Part = Part(stable: Option<RangeList>, entries: seq<Entry>)

  /** Where the masters of a chunk are: one on each half, or both on one. */
  datatype Role = Normal | FirstChunkMaster | SecondChunkMaster

  /** One proxy of a chunk with its host and its two nodes. */
  datatype Half = Half(proxy: string, host: string, node0: string, node1: string)

  datatype Chunk = Chunk(role: Role, first: Half, second: Half)

  // ----- reading the state -----

  /** The migrations whose migrating (or importing) half is in `es`. */
  function Halves(es: seq<Entry>, migrating: bool): seq<Task> {
    if es == [] then []
    else if es[0].migrating == migrating then [es[0].task] + Halves(es[1..], migrating)
    else Halves(es[1..], migrating)
  }

  /** All stored halves of one kind, in storage order. */
  function AllHalves(parts: seq<Part>, migrating: bool): seq<Task> {
    if parts == [] then []
    else AllHalves(parts[..|parts| - 1], migrating) + Halves(parts[|parts| - 1].entries, migrating)
  }

  function Outs(es: seq<Entry>): seq<Task> { Halves(es, true) }

  function Ins(es: seq<Entry>): seq<Task> { Halves(es, false) }

  function AllOuts(parts: seq<Part>): seq<Task> { AllHalves(parts, true) }

  function AllIns(parts: seq<Part>): seq<Task> { AllHalves(parts, false) }

  ghost function TaskCover(ts: seq<Task>, s: nat): nat {
    if ts == [] then 0 else Cover(ts[0].ranges, s) + TaskCover(ts[1..], s)
  }

  ghost function TaskSize(ts: seq<Task>): nat {
    if ts == [] then 0 else Size(ts[0].ranges) + TaskSize(ts[1..])
  }

  function Stored(stable: Option<RangeList>): RangeList {
    if stable.Some? then stable.value else []
  }

  ghost function StableCover(parts: seq<Part>, s: nat): nat {
    if parts == [] then 0
    else StableCover(parts[..|parts| - 1], s) + Cover(Stored(parts[|parts| - 1].stable), s)
  }

  // ----- the invariant -----

  ghost predicate GoodTask(t: Task, n: nat, epoch: nat) {
    && t.ranges != [] && Canonical(t.ranges)
    && t.meta.src < n && t.meta.dst < n && t.meta.src != t.meta.dst
    && t.meta.epoch <= epoch
  }

  /** Lists are canonical and non-empty, and each half sits where its meta says. */
  ghost predicate GoodPart(p: Part, i: nat, n: nat, epoch: nat) {
    && (p.stable.Some? ==> p.stable.value != [] && Canonical(p.stable.value))
    && forall e :: e in p.entries ==>
         GoodTask(e.task, n, epoch) && i == if e.migrating then e.task.meta.src else e.task.meta.dst
  }

  ghost predicate GoodParts(parts: seq<Part>, epoch: nat) {
    forall i :: 0 <= i < |parts| ==> GoodPart(parts[i], i, |parts|, epoch)
  }

  /** Every slot lies in exactly one stable range or exactly one migration. */
  ghost predicate Partition(parts: seq<Part>) {
    forall s: nat :: StableCover(parts, s) + TaskCover(AllOuts(parts), s) == if s < SLOT_NUM then 1 else 0
  }

  ghost function Occurs(ts: seq<Task>, t: Task): nat {
    if ts == [] then 0 else (if ts[0] == t then 1 else 0) + Occurs(ts[1..], t)
  }

  /** The same tasks, each as often, in any order. */
  ghost predicate Permuted(a: seq<Task>, b: seq<Task>) {
    forall t :: Occurs(a, t) == Occurs(b, t)
  }

  /** Migrating and importing halves come in equal pairs. */
  ghost predicate Twins(parts: seq<Part>) {
    Permuted(AllOuts(parts), AllIns(parts))
  }

  /** What a part holds once all its imports have arrived. */
  ghost function FinalSize(p: Part): nat {
    Size(Stored(p.stable)) + TaskSize(Ins(p.entries))
  }

  /** The first `target` masters end up sharing the slots evenly. */
  ghost predicate Balanced(parts: seq<Part>, target: nat) {
    && 0 < target <= |parts| && target <= SLOT_NUM && target % 2 == 0
    && forall i :: 0 <= i < |parts| ==> FinalSize(parts[i]) == Share(target, i)
  }

  /** Slot 0 never leaves the first master. */
  ghost predicate Rooted(parts: seq<Part>) {
    && |parts| > 0 && parts[0].stable.Some?
    && parts[0].stable.value != [] && parts[0].stable.value[0].start == 0
  }

  ghost predicate SlotsInv(parts: seq<Part>, epoch: nat) {
    && |parts| % 2 == 0
    && GoodParts(parts, epoch)
    && Partition(parts)
    && Twins(parts)
    && Rooted(parts)
    && exists target :: Balanced(parts, target)
  }

  predicate NoEntries(parts: seq<Part>) {
    forall i :: 0 <= i < |parts| ==> parts[i].entries == []
  }

  // ----- sums over lists of tasks -----

  lemma {:induction false} TaskCoverAppend(a: seq<Task>, b: seq<Task>, s: nat)
    ensures TaskCover(a + b, s) == TaskCover(a, s) + TaskCover(b, s)
  {
    if a == [] {
      assert a + b == b;
    } else {
      assert (a + b)[1..] == a[1..] + b;
      TaskCoverAppend(a[1..], b, s);
    }
  }

  lemma {:induction false} TaskSizeAppend(a: seq<Task>, b: seq<Task>)
    ensures TaskSize(a + b) == TaskSize(a) + TaskSize(b)
  {
    if a == [] {
      assert a + b == b;
    } else {
      assert (a + b)[1..] == a[1..] + b;
      TaskSizeAppend(a[1..], b);
    }
  }

  lemma {:induction false} HalvesAppend(a: seq<Entry>, b: seq<Entry>, m: bool)
    ensures Halves(a + b, m) == Halves(a, m) + Halves(b, m)
  {
    if a == [] {
      assert a + b == b;
    } else {
      assert (a + b)[1..] == a[1..] + b;
      HalvesAppend(a[1..], b, m);
      if a[0].migrating == m {
        assert Halves(a, m) + Halves(b, m) == [a[0].task] + (Halves(a[1..], m) + Halves(b, m));
      }
    }
  }

  lemma {:induction false} HalvesMember(es: seq<Entry>, m: bool, t: Task)
    ensures t in Halves(es, m) <==> Entry(t, m) in es
  {
    if es != [] {
      HalvesMember(es[1..], m, t);
    }
  }

  lemma {:induction false} AllHalvesMember(parts: seq<Part>, m: bool, t: Task)
    ensures t in AllHalves(parts, m) <==> exists i :: 0 <= i < |parts| && t in Halves(parts[i].entries, m)
  {
    if parts != [] {
      var front := parts[..|parts| - 1];
      AllHalvesMember(front, m, t);
      if i :| 0 <= i < |parts| && t in Halves(parts[i].entries, m) {
        assert i < |front| ==> front[i] == parts[i];
      }
    }
  }

  lemma {:induction false} OccursAppend(a: seq<Task>, b: seq<Task>, t: Task)
    ensures Occurs(a + b, t) == Occurs(a, t) + Occurs(b, t)
  {
    if a == [] {
      assert a + b == b;
    } else {
      assert (a + b)[1..] == a[1..] + b;
      OccursAppend(a[1..], b, t);
    }
  }

  lemma {:induction false} OccursMember(ts: seq<Task>, t: Task)
    ensures Occurs(ts, t) > 0 <==> t in ts
  {
    if ts != [] {
      OccursMember(ts[1..], t);
    }
  }

  function Without(b: seq<Task>, k: nat): seq<Task>
    requires k < |b|
  {
    b[..k] + b[k + 1..]
  }

  lemma OccursWithout(b: seq<Task>, k: nat, t: Task)
    requires k < |b|
    ensures Occurs(b, t) == Occurs(Without(b, k), t) + if b[k] == t then 1 else 0
  {
    assert b == b[..k] + b[k..] && b[k..][1..] == b[k + 1..];
    OccursAppend(b[..k], b[k..], t);
    OccursAppend(b[..k], b[k + 1..], t);
  }

  lemma PermutedHead(a: seq<Task>, b: seq<Task>) returns (k: nat)
    requires Permuted(a, b) && a != []
    ensures k < |b| && b[k] == a[0] && Permuted(a[1..], Without(b, k))
  {
    OccursMember(a, a[0]);
    OccursMember(b, a[0]);
    assert Occurs(a, a[0]) == Occurs(b, a[0]);
    k :| 0 <= k < |b| && b[k] == a[0];
    forall t ensures Occurs(a[1..], t) == Occurs(Without(b, k), t) {
      OccursWithout(b, k, t);
      assert Occurs(a, t) == Occurs(b, t);
    }
  }

  lemma {:induction false} TaskCoverMember(ts: seq<Task>, t: Task, s: nat)
    requires t in ts
    ensures Cover(t.ranges, s) <= TaskCover(ts, s)
  {
    if t != ts[0] {
      TaskCoverMember(ts[1..], t, s);
    }
  }

  // ----- changing one part -----

  lemma {:induction false} AllHalvesUpdate(parts: seq<Part>, i: nat, p: Part, m: bool, t: Task)
    requires i < |parts|
    ensures Occurs(AllHalves(parts[i := p], m), t) + Occurs(Halves(parts[i].entries, m), t) ==
            Occurs(AllHalves(parts, m), t) + Occurs(Halves(p.entries, m), t)
  {
    var n := |parts| - 1;
    OccursAppend(AllHalves(parts[..n], m), Halves(parts[n].entries, m), t);
    OccursAppend(AllHalves(parts[i := p][..n], m), Halves(parts[i := p][n].entries, m), t);
    if i < n {
      assert parts[i := p][..n] == parts[..n][i := p];
      AllHalvesUpdate(parts[..n], i, p, m, t);
    } else {
      assert parts[i := p][..n] == parts[..n];
    }
  }

  lemma {:induction false} NoEntriesNoTasks(parts: seq<Part>, m: bool)
    requires NoEntries(parts)
    ensures AllHalves(parts, m) == []
  {
    if parts != [] {
      NoEntriesNoTasks(parts[..|parts| - 1], m);
    }
  }

  lemma {:induction false} StableCoverMember(parts: seq<Part>, i: nat, s: nat)
    requires i < |parts|
    ensures Cover(Stored(parts[i].stable), s) <= StableCover(parts, s)
  {
    if i < |parts| - 1 {
      StableCoverMember(parts[..|parts| - 1], i, s);
    }
  }

  lemma {:induction false} StableCoverTwo(parts: seq<Part>, i: nat, j: nat, s: nat)
    requires i < j < |parts|
    ensures Cover(Stored(parts[i].stable), s) + Cover(Stored(parts[j].stable), s) <= StableCover(parts, s)
  {
    var n := |parts| - 1;
    if j < n {
      StableCoverTwo(parts[..n], i, j, s);
    } else {
      StableCoverMember(parts[..n], i, s);
    }
  }

  // ----- ownership -----

  /** How often slot `s` is owned by a part: stable there or migrating away from it. */
  ghost function Own(p: Part, s: nat): nat {
    Cover(Stored(p.stable), s) + TaskCover(Outs(p.entries), s)
  }

  /** No slot changes its current owner. */
  ghost predicate SameOwners(a: seq<Part>, b: seq<Part>) {
    |a| == |b| && forall i, s: nat :: 0 <= i < |a| ==> Own(a[i], s) == Own(b[i], s)
  }

  ghost function OwnSum(parts: seq<Part>, s: nat): nat {
    if parts == [] then 0 else OwnSum(parts[..|parts| - 1], s) + Own(parts[|parts| - 1], s)
  }

  lemma {:induction false} OwnSumIsCover(parts: seq<Part>, s: nat)
    ensures OwnSum(parts, s) == StableCover(parts, s) + TaskCover(AllOuts(parts), s)
  {
    if parts != [] {
      var n := |parts| - 1;
      OwnSumIsCover(parts[..n], s);
      TaskCoverAppend(AllOuts(parts[..n]), Outs(parts[n].entries), s);
    }
  }

  lemma {:induction false} OwnSumUpdate(parts: seq<Part>, i: nat, p: Part, s: nat)
    requires i < |parts|
    ensures OwnSum(parts[i := p], s) + Own(parts[i], s) == OwnSum(parts, s) + Own(p, s)
  {
    var n := |parts| - 1;
    if i < n {
      assert parts[i := p][..n] == parts[..n][i := p];
      OwnSumUpdate(parts[..n], i, p, s);
    } else {
      assert parts[i := p][..n] == parts[..n];
    }
  }

  lemma {:induction false} OwnSumEqual(a: seq<Part>, b: seq<Part>, s: nat)
    requires |a| == |b| && forall i :: 0 <= i < |a| ==> Own(a[i], s) == Own(b[i], s)
    ensures OwnSum(a, s) == OwnSum(b, s)
  {
    if a != [] {
      var n := |a| - 1;
      OwnSumEqual(a[..n], b[..n], s);
    }
  }

  lemma SameOwnersPartition(a: seq<Part>, b: seq<Part>)
    requires SameOwners(a, b)
    ensures Partition(a) <==> Partition(b)
  {
    forall s: nat
      ensures StableCover(a, s) + TaskCover(AllOuts(a), s) == StableCover(b, s) + TaskCover(AllOuts(b), s)
    {
      OwnSumEqual(a, b, s);
      OwnSumIsCover(a, s);
      OwnSumIsCover(b, s);
    }
  }

  // ----- the balance law at rest -----

  /** With no migration stored, the masters holding slots are exactly the first
      `target`, and master `i` holds exactly its share. */
  lemma RestShares(parts: seq<Part>, epoch: nat, target: nat, i: nat)
    requires GoodParts(parts, epoch) && Balanced(parts, target) && NoEntries(parts)
    requires i < |parts|
    ensures Size(Stored(parts[i].stable)) == Share(target, i)
    ensures parts[i].stable.Some? <==> i < target
  {
    assert GoodPart(parts[i], i, |parts|, epoch);
    SizeZero(Stored(parts[i].stable));
    if i < target {
      SharePositive(target, i);
    }
  }
}

/** Committing a finished migration (src/broker/migrate.rs, commit_migration). */
module Commit {
  import opened Ranges
  import opened ClusterState
  import opened Planning

  /** Entries other than `e`, in order (`retain`). */
  function Drop(es: seq<Entry>, e: Entry): seq<Entry> {
    if es == [] then []
    else if es[0] == e then Drop(es[1..], e)
    else [es[0]] + Drop(es[1..], e)
  }

  ghost function DropTask(ts: seq<Task>, t: Task): seq<Task> {
    if ts == [] then []
    else if ts[0] == t then DropTask(ts[1..], t)
    else [ts[0]] + DropTask(ts[1..], t)
  }

  /** What a commit does to the slots: the migration leaves its source, and its ranges
      become stable slots of its destination. */
  function CommitTask(parts: seq<Part>, t: Task): (parts': seq<Part>)
    requires t.meta.src < |parts| && t.meta.dst < |parts|
    ensures |parts'| == |parts|
  {
    var src, dst := t.meta.src, t.meta.dst;
    var parts1 := parts[src := parts[src].(entries := Drop(parts[src].entries, Entry(t, true)))];
    parts1[dst := Part(Some(Compacted(Stored(parts1[dst].stable) + t.ranges)),
                       Drop(parts1[dst].entries, Entry(t, false)))]
  }

  // ----- Drop -----

  lemma {:induction false} DropMember(es: seq<Entry>, e: Entry, x: Entry)
    ensures x in Drop(es, e) <==> x in es && x != e
  {
    if es != [] {
      DropMember(es[1..], e, x);
    }
  }

  lemma {:induction false} DropAbsent(es: seq<Entry>, e: Entry)
    requires e !in es
    ensures Drop(es, e) == es
  {
    if es != [] {
      DropAbsent(es[1..], e);
    }
  }

  lemma {:induction false} DropHalves(es: seq<Entry>, t: Task, migrating: bool, m: bool)
    ensures Halves(Drop(es, Entry(t, migrating)), m) ==
            if m == migrating then DropTask(Halves(es, m), t) else Halves(es, m)
  {
    if es != [] {
      DropHalves(es[1..], t, migrating, m);
      var e, rest := Entry(t, migrating), Drop(es[1..], Entry(t, migrating));
      assert es[0] != e ==> ([es[0]] + rest)[1..] == rest;
      assert es[0].migrating == m ==> ([es[0].task] + Halves(es[1..], m))[1..] == Halves(es[1..], m);
    }
  }

  lemma {:induction false} DropTaskOccurs(ts: seq<Task>, t: Task, x: Task)
    ensures Occurs(DropTask(ts, t), x) == if x == t then 0 else Occurs(ts, x)
  {
    if ts != [] {
      DropTaskOccurs(ts[1..], t, x);
      assert ts[0] != t ==> ([ts[0]] + DropTask(ts[1..], t))[1..] == DropTask(ts[1..], t);
    }
  }

  lemma {:induction false} DropTaskAbsent(ts: seq<Task>, t: Task)
    requires Occurs(ts, t) == 0
    ensures DropTask(ts, t) == ts
  {
    if ts != [] {
      DropTaskAbsent(ts[1..], t);
    }
  }

  /** Dropping a task that occurs once takes its slots away, and no others. */
  lemma {:induction false} DropTaskSums(ts: seq<Task>, t: Task, s: nat)
    requires Occurs(ts, t) == 1
    ensures TaskCover(ts, s) == TaskCover(DropTask(ts, t), s) + Cover(t.ranges, s)
    ensures TaskSize(ts) == TaskSize(DropTask(ts, t)) + Size(t.ranges)
  {
    if ts[0] == t {
      DropTaskAbsent(ts[1..], t);
    } else {
      DropTaskSums(ts[1..], t, s);
      assert ([ts[0]] + DropTask(ts[1..], t))[1..] == DropTask(ts[1..], t);
    }
  }

  // ----- stored tasks are unique -----

  lemma {:induction false} TaskCoverOccurs(ts: seq<Task>, t: Task, s: nat)
    ensures Occurs(ts, t) * Cover(t.ranges, s) <= TaskCover(ts, s)
  {
    if ts != [] {
      TaskCoverOccurs(ts[1..], t, s);
    }
  }

  lemma {:induction false} TaskCoverTwo(ts: seq<Task>, t: Task, u: Task, s: nat)
    requires t in ts && u in ts && t != u
    ensures Cover(t.ranges, s) + Cover(u.ranges, s) <= TaskCover(ts, s)
  {
    if ts[0] == t {
      TaskCoverMember(ts[1..], u, s);
    } else if ts[0] == u {
      TaskCoverMember(ts[1..], t, s);
    } else {
      TaskCoverTwo(ts[1..], t, u, s);
    }
  }

  lemma FirstSlotCovered(rl: RangeList)
    requires rl != [] && Ordered(rl)
    ensures Cover(rl, rl[0].start) > 0
  {
  }

  /** A stored migration is determined by its ranges. */
  lemma StoredOnce(parts: seq<Part>, t: Task, u: Task)
    requires Partition(parts) && t in AllOuts(parts) && u in AllOuts(parts)
    requires t.ranges == u.ranges && t.ranges != [] && Ordered(t.ranges)
    ensures t == u && Occurs(AllOuts(parts), t) == 1
  {
    var s := t.ranges[0].start;
    FirstSlotCovered(t.ranges);
    assert StableCover(parts, s) + TaskCover(AllOuts(parts), s) <= 1;
    TaskCoverOccurs(AllOuts(parts), t, s);
    OccursMember(AllOuts(parts), t);
    if t != u {
      TaskCoverTwo(AllOuts(parts), t, u, s);
    }
  }

  lemma {:induction false} HalvesWithin(parts: seq<Part>, m: bool, i: nat, t: Task)
    requires i < |parts|
    ensures Occurs(Halves(parts[i].entries, m), t) <= Occurs(AllHalves(parts, m), t)
  {
    var n := |parts| - 1;
    OccursAppend(AllHalves(parts[..n], m), Halves(parts[n].entries, m), t);
    if i < n {
      HalvesWithin(parts[..n], m, i, t);
    }
  }

  /** The two halves of a stored task: each exactly once, where its meta says. */
  ghost predicate StoredAt(parts: seq<Part>, t: Task, epoch: nat) {
    && GoodTask(t, |parts|, epoch)
    && Occurs(AllOuts(parts), t) == 1 && Occurs(AllIns(parts), t) == 1
    && Occurs(Outs(parts[t.meta.src].entries), t) == 1 && Occurs(Ins(parts[t.meta.dst].entries), t) == 1
  }

  lemma HalfAt(parts: seq<Part>, epoch: nat, m: bool, t: Task) returns (i: nat)
    requires GoodParts(parts, epoch) && t in AllHalves(parts, m)
    ensures i < |parts| && Entry(t, m) in parts[i].entries && i == (if m then t.meta.src else t.meta.dst)
    ensures GoodTask(t, |parts|, epoch) && Occurs(Halves(parts[i].entries, m), t) > 0
  {
    AllHalvesMember(parts, m, t);
    i :| 0 <= i < |parts| && t in Halves(parts[i].entries, m);
    HalvesMember(parts[i].entries, m, t);
    OccursMember(Halves(parts[i].entries, m), t);
    assert GoodPart(parts[i], i, |parts|, epoch);
  }

  lemma StoredTask(parts: seq<Part>, epoch: nat, t: Task)
    requires SlotsInv(parts, epoch) && t in AllOuts(parts)
    ensures StoredAt(parts, t, epoch)
  {
    var i := HalfAt(parts, epoch, true, t);
    StoredOnce(parts, t, t);
    assert Occurs(AllOuts(parts), t) == Occurs(AllIns(parts), t);
    OccursMember(AllIns(parts), t);
    var j := HalfAt(parts, epoch, false, t);
    HalvesWithin(parts, true, i, t);
    HalvesWithin(parts, false, j, t);
  }

  /** A migration shares no slot with stable slots. */
  lemma TaskApartFromStable(parts: seq<Part>, t: Task, i: nat, s: nat)
    requires Partition(parts) && t in AllOuts(parts) && i < |parts|
    ensures Cover(Stored(parts[i].stable), s) + Cover(t.ranges, s) <= 1
  {
    StableCoverMember(parts, i, s);
    TaskCoverMember(AllOuts(parts), t, s);
    assert StableCover(parts, s) + TaskCover(AllOuts(parts), s) <= 1;
  }

  // ----- what a commit changes -----

  /** The merged list holds the old stable slots and the migration's. */
  lemma Merged(stable: RangeList, ranges: RangeList)
    requires Canonical(stable) && Canonical(ranges) && ranges != []
    requires forall s: nat :: Cover(stable, s) + Cover(ranges, s) <= 1
    ensures forall s: nat :: Cover(Compacted(stable + ranges), s) == Cover(stable, s) + Cover(ranges, s)
    ensures Size(Compacted(stable + ranges)) == Size(stable) + Size(ranges)
    ensures Canonical(Compacted(stable + ranges)) && Compacted(stable + ranges) != []
  {
    forall s: nat ensures Cover(stable + ranges, s) == Cover(stable, s) + Cover(ranges, s) {
      CoverAppend(stable, ranges, s);
    }
    SizeAppend(stable, ranges);
    CompactedDisjoint(stable + ranges);
  }

  /** Part by part: the source loses the migration, the destination makes it stable. */
  lemma CommitParts(parts: seq<Part>, epoch: nat, t: Task)
    requires SlotsInv(parts, epoch) && StoredAt(parts, t, epoch) && t in AllOuts(parts)
    ensures var parts' := CommitTask(parts, t);
            && (forall i :: 0 <= i < |parts| && i != t.meta.src && i != t.meta.dst ==> parts'[i] == parts[i])
            && parts'[t.meta.src] ==
               parts[t.meta.src].(entries := Drop(parts[t.meta.src].entries, Entry(t, true)))
            && parts'[t.meta.dst] ==
               Part(Some(Compacted(Stored(parts[t.meta.dst].stable) + t.ranges)),
                    Drop(parts[t.meta.dst].entries, Entry(t, false)))
    ensures Canonical(Stored(parts[t.meta.dst].stable))
    ensures forall s: nat :: Cover(Stored(parts[t.meta.dst].stable), s) + Cover(t.ranges, s) <= 1
  {
    assert GoodPart(parts[t.meta.dst], t.meta.dst, |parts|, epoch);
    forall s: nat ensures Cover(Stored(parts[t.meta.dst].stable), s) + Cover(t.ranges, s) <= 1 {
      TaskApartFromStable(parts, t, t.meta.dst, s);
    }
  }

  /** The committed slots change owner, from the source to the destination; no
      other slot does. */
  lemma CommitMovesOwner(parts: seq<Part>, epoch: nat, t: Task, i: nat, s: nat)
    requires SlotsInv(parts, epoch) && StoredAt(parts, t, epoch) && t in AllOuts(parts) && i < |parts|
    ensures Own(CommitTask(parts, t)[i], s) + (if i == t.meta.src then Cover(t.ranges, s) else 0) ==
            Own(parts[i], s) + if i == t.meta.dst then Cover(t.ranges, s) else 0
  {
    CommitParts(parts, epoch, t);
    if i == t.meta.src {
      DropHalves(parts[i].entries, t, true, true);
      DropTaskSums(Outs(parts[i].entries), t, s);
    } else if i == t.meta.dst {
      DropHalves(parts[i].entries, t, false, true);
      Merged(Stored(parts[i].stable), t.ranges);
    }
  }

  lemma CommitFinalSize(parts: seq<Part>, epoch: nat, t: Task, i: nat)
    requires SlotsInv(parts, epoch) && StoredAt(parts, t, epoch) && t in AllOuts(parts) && i < |parts|
    ensures FinalSize(CommitTask(parts, t)[i]) == FinalSize(parts[i])
  {
    CommitParts(parts, epoch, t);
    if i == t.meta.src {
      DropHalves(parts[i].entries, t, true, false);
    } else if i == t.meta.dst {
      DropHalves(parts[i].entries, t, false, false);
      DropTaskSums(Ins(parts[i].entries), t, 0);
      Merged(Stored(parts[i].stable), t.ranges);
    }
  }

  lemma CommitHalves(parts: seq<Part>, epoch: nat, t: Task, m: bool, x: Task)
    requires SlotsInv(parts, epoch) && StoredAt(parts, t, epoch)
    ensures Occurs(AllHalves(CommitTask(parts, t), m), x) == Occurs(AllHalves(parts, m), x) - if x == t then 1 else 0
  {
    var src, dst := t.meta.src, t.meta.dst;
    var p1 := parts[src].(entries := Drop(parts[src].entries, Entry(t, true)));
    var parts1 := parts[src := p1];
    var p2 := Part(Some(Compacted(Stored(parts1[dst].stable) + t.ranges)), Drop(parts1[dst].entries, Entry(t, false)));
    AllHalvesUpdate(parts, src, p1, m, x);
    AllHalvesUpdate(parts1, dst, p2, m, x);
    DropHalves(parts[src].entries, t, true, m);
    DropHalves(parts1[dst].entries, t, false, m);
    DropTaskOccurs(Halves(parts[src].entries, m), t, x);
    DropTaskOccurs(Halves(parts1[dst].entries, m), t, x);
  }

  lemma CommitPartition(parts: seq<Part>, epoch: nat, t: Task)
    requires SlotsInv(parts, epoch) && StoredAt(parts, t, epoch) && t in AllOuts(parts)
    ensures Partition(CommitTask(parts, t))
  {
    var parts' := CommitTask(parts, t);
    var src, dst := t.meta.src, t.meta.dst;
    forall s: nat
      ensures StableCover(parts', s) + TaskCover(AllOuts(parts'), s) ==
              StableCover(parts, s) + TaskCover(AllOuts(parts), s)
    {
      OwnSumIsCover(parts, s);
      OwnSumIsCover(parts', s);
      CommitMovesOwner(parts, epoch, t, src, s);
      CommitMovesOwner(parts, epoch, t, dst, s);
      OwnSumUpdate(parts, src, parts'[src], s);
      OwnSumUpdate(parts[src := parts'[src]], dst, parts'[dst], s);
      assert parts' == parts[src := parts'[src]][dst := parts'[dst]];
    }
  }

  lemma FirstIsZero(rl: RangeList)
    requires Canonical(rl) && Cover(rl, 0) > 0
    ensures rl != [] && rl[0].start == 0
  {
    CoverWitness(rl, 0);
  }

  lemma CommitGood(parts: seq<Part>, epoch: nat, t: Task)
    requires SlotsInv(parts, epoch) && StoredAt(parts, t, epoch) && t in AllOuts(parts)
    ensures GoodParts(CommitTask(parts, t), epoch) && Rooted(CommitTask(parts, t))
  {
    var parts' := CommitTask(parts, t);
    CommitParts(parts, epoch, t);
    Merged(Stored(parts[t.meta.dst].stable), t.ranges);
    forall i | 0 <= i < |parts| ensures GoodPart(parts'[i], i, |parts|, epoch) {
      assert GoodPart(parts[i], i, |parts|, epoch);
      forall e | e in parts'[i].entries ensures e in parts[i].entries {
        if i == t.meta.src {
          DropMember(parts[i].entries, Entry(t, true), e);
        } else if i == t.meta.dst {
          DropMember(parts[i].entries, Entry(t, false), e);
        }
      }
    }
    if t.meta.dst == 0 {
      FirstSlotCovered(parts[0].stable.value);
      FirstIsZero(parts'[0].stable.value);
    }
  }

  /** Committing a stored migration keeps the invariant and the balance target,
      whatever the order of commits. */
  lemma CommitKeepsInv(parts: seq<Part>, epoch: nat, t: Task)
    requires SlotsInv(parts, epoch) && t in AllOuts(parts)
    ensures StoredAt(parts, t, epoch) && SlotsInv(CommitTask(parts, t), epoch)
    ensures forall target :: Balanced(parts, target) ==> Balanced(CommitTask(parts, t), target)
  {
    StoredTask(parts, epoch, t);
    var parts' := CommitTask(parts, t);
    CommitGood(parts, epoch, t);
    CommitPartition(parts, epoch, t);
    forall x ensures Occurs(AllOuts(parts'), x) == Occurs(AllIns(parts'), x) {
      CommitHalves(parts, epoch, t, true, x);
      CommitHalves(parts, epoch, t, false, x);
      assert Occurs(AllOuts(parts), x) == Occurs(AllIns(parts), x);
    }
    forall i | 0 <= i < |parts| ensures FinalSize(parts'[i]) == FinalSize(parts[i]) {
      CommitFinalSize(parts, epoch, t, i);
    }
    var target :| Balanced(parts, target);
    assert Balanced(parts', target);
  }

  // ----- the operation as the source runs it -----

  predicate Matches(e: Entry, ranges: RangeList, epoch: nat, migrating: bool) {
    e.migrating == migrating && e.task.ranges == ranges && e.task.meta.epoch == epoch
  }

  /** The part holding the first matching half, if any. */
  method FindHalf(parts: seq<Part>, ranges: RangeList, epoch: nat, migrating: bool) returns (found: Option<nat>)
    ensures found.Some? ==>
              && found.value < |parts|
              && exists e :: e in parts[found.value].entries && Matches(e, ranges, epoch, migrating)
    ensures found.None? ==>
              forall i, e :: 0 <= i < |parts| && e in parts[i].entries ==> !Matches(e, ranges, epoch, migrating)
  {
    var i := 0;
    while i < |parts|
      invariant 0 <= i <= |parts|
      invariant forall k, e :: 0 <= k < i && e in parts[k].entries ==> !Matches(e, ranges, epoch, migrating)
    {
      var j := 0;
      while j < |parts[i].entries|
        invariant 0 <= j <= |parts[i].entries|
        invariant forall k :: 0 <= k < j ==> !Matches(parts[i].entries[k], ranges, epoch, migrating)
      {
        if Matches(parts[i].entries[j], ranges, epoch, migrating) {
          return Some(i);
        }
        j := j + 1;
      }
      i := i + 1;
    }
    return None;
  }

  method RetainOthers(parts0: seq<Part>, e: Entry) returns (parts: seq<Part>)
    ensures |parts| == |parts0|
    ensures forall i :: 0 <= i < |parts| ==> parts[i] == parts0[i].(entries := Drop(parts0[i].entries, e))
  {
    parts := parts0;
    var i := 0;
    while i < |parts|
      invariant 0 <= i <= |parts| == |parts0|
      invariant forall k :: 0 <= k < i ==> parts[k] == parts0[k].(entries := Drop(parts0[k].entries, e))
      invariant forall k :: i <= k < |parts| ==> parts[k] == parts0[k]
    {
      parts := parts[i := parts[i].(entries := Drop(parts[i].entries, e))];
      i := i + 1;
    }
  }

  /** The first position of an entry in a part. */
  method Position(es: seq<Entry>, e: Entry) returns (k: nat)
    ensures k <= |es| && (k < |es| ==> es[k] == e) && (k == |es| ==> e !in es)
  {
    k := 0;
    while k < |es|
      invariant k <= |es| && e !in es[..k]
    {
      if es[k] == e {
        return;
      }
      k := k + 1;
    }
    assert es[..k] == es;
  }

  /** Removes the importing half from the first part that has it and merges its
      ranges into that part's stable slots. */
  method TakeIn(parts0: seq<Part>, t: Task) returns (parts: seq<Part>, ghost at: nat, ghost k: nat)
    ensures at <= |parts0|
    ensures at == |parts0| ==>
              parts == parts0 && forall i :: 0 <= i < |parts0| ==> Entry(t, false) !in parts0[i].entries
    ensures at < |parts0| ==>
              && k < |parts0[at].entries| && parts0[at].entries[k] == Entry(t, false)
              && parts == parts0[at := Part(
                   Some(if parts0[at].stable.Some? then Compacted(parts0[at].stable.value + t.ranges) else t.ranges),
                   parts0[at].entries[..k] + parts0[at].entries[k + 1..])]
  {
    parts, k := parts0, 0;
    var i := 0;
    while i < |parts|
      invariant 0 <= i <= |parts| && parts == parts0
      invariant forall j :: 0 <= j < i ==> Entry(t, false) !in parts0[j].entries
    {
      var index := Position(parts[i].entries, Entry(t, false));
      if index < |parts[i].entries| {
        var p := parts[i].(entries := parts[i].entries[..index] + parts[i].entries[index + 1..]);
        if p.stable.Some? {
          p := p.(stable := Some(Compacted(p.stable.value + t.ranges)));
        } else {
          p := p.(stable := Some(t.ranges));
        }
        parts, at, k := parts[i := p], i, index;
        return;
      }
      i := i + 1;
    }
    at := i;
  }

  lemma {:induction false} RemoveAtIsDrop(es: seq<Entry>, k: nat, t: Task)
    requires k < |es| && es[k] == Entry(t, false) && Occurs(Ins(es), t) == 1
    ensures es[..k] + es[k + 1..] == Drop(es, Entry(t, false))
  {
    if k == 0 {
      HalvesMember(es[1..], false, t);
      OccursMember(Ins(es[1..]), t);
      DropAbsent(es[1..], Entry(t, false));
    } else {
      HalvesMember(es[1..], false, t);
      OccursMember(Ins(es[1..]), t);
      assert es[1..][k - 1] == es[k];
      RemoveAtIsDrop(es[1..], k - 1, t);
      assert es[..k] + es[k + 1..] == [es[0]] + (es[1..][..k - 1] + es[1..][k..]);
    }
  }

  /** Under the invariant the two halves found belong to one stored task. */
  lemma FoundTask(parts: seq<Part>, epoch: nat, ranges: RangeList, taskEpoch: nat, i: nat, j: nat)
    requires SlotsInv(parts, epoch) && i < |parts| && j < |parts|
    requires exists e :: e in parts[i].entries && Matches(e, ranges, taskEpoch, true)
    requires exists e :: e in parts[j].entries && Matches(e, ranges, taskEpoch, false)
    ensures var t := Task(ranges, Meta(taskEpoch, i, j)); t in AllOuts(parts) && StoredAt(parts, t, epoch)
  {
    var e :| e in parts[i].entries && Matches(e, ranges, taskEpoch, true);
    var f :| f in parts[j].entries && Matches(f, ranges, taskEpoch, false);
    HalvesMember(parts[i].entries, true, e.task);
    AllHalvesMember(parts, true, e.task);
    HalvesMember(parts[j].entries, false, f.task);
    AllHalvesMember(parts, false, f.task);
    OccursMember(AllIns(parts), f.task);
    OccursMember(AllOuts(parts), f.task);
    assert Occurs(AllOuts(parts), f.task) == Occurs(AllIns(parts), f.task);
    assert GoodPart(parts[i], i, |parts|, epoch) && GoodPart(parts[j], j, |parts|, epoch);
    StoredOnce(parts, e.task, f.task);
    StoredTask(parts, epoch, e.task);
    assert e.task == Task(ranges, Meta(taskEpoch, i, j));
  }

  /** A migrating half that matches has an importing twin that does. */
  lemma TwinMatches(parts: seq<Part>, epoch: nat, ranges: RangeList, taskEpoch: nat, i: nat)
    requires SlotsInv(parts, epoch) && i < |parts|
    requires exists e :: e in parts[i].entries && Matches(e, ranges, taskEpoch, true)
    ensures exists j, e :: 0 <= j < |parts| && e in parts[j].entries && Matches(e, ranges, taskEpoch, false)
  {
    var e :| e in parts[i].entries && Matches(e, ranges, taskEpoch, true);
    var j := e.task.meta.dst;
    HalvesMember(parts[i].entries, true, e.task);
    AllHalvesMember(parts, true, e.task);
    StoredTask(parts, epoch, e.task);
    OccursMember(Ins(parts[j].entries), e.task);
    HalvesMember(parts[j].entries, false, e.task);
    assert Entry(e.task, false) in parts[j].entries && Matches(Entry(e.task, false), ranges, taskEpoch, false);
  }

  lemma OnlyThere(parts: seq<Part>, epoch: nat, e: Entry, i: nat)
    requires GoodParts(parts, epoch) && i < |parts|
    requires i != if e.migrating then e.task.meta.src else e.task.meta.dst
    ensures e !in parts[i].entries
  {
    assert GoodPart(parts[i], i, |parts|, epoch);
  }

  lemma RetainedSource(parts0: seq<Part>, parts: seq<Part>, epoch: nat, t: Task)
    requires GoodParts(parts0, epoch) && t.meta.src < |parts0| == |parts|
    requires forall i :: 0 <= i < |parts| ==>
               parts[i] == parts0[i].(entries := Drop(parts0[i].entries, Entry(t, true)))
    ensures parts ==
            parts0[t.meta.src := parts0[t.meta.src].(entries := Drop(parts0[t.meta.src].entries, Entry(t, true)))]
  {
    forall i | 0 <= i < |parts| && i != t.meta.src ensures parts[i] == parts0[i] {
      OnlyThere(parts0, epoch, Entry(t, true), i);
      DropAbsent(parts0[i].entries, Entry(t, true));
    }
  }

  /** The loops add up to `CommitTask`. */
  lemma StepsAreCommit(parts0: seq<Part>, parts1: seq<Part>, parts2: seq<Part>, epoch: nat, t: Task, at: nat, k: nat)
    requires SlotsInv(parts0, epoch) && t in AllOuts(parts0) && StoredAt(parts0, t, epoch)
    requires |parts1| == |parts0| && forall i :: 0 <= i < |parts1| ==>
               parts1[i] == parts0[i].(entries := Drop(parts0[i].entries, Entry(t, true)))
    requires at <= |parts1|
    requires at == |parts1| ==> forall i :: 0 <= i < |parts1| ==> Entry(t, false) !in parts1[i].entries
    requires at < |parts1| ==>
               && k < |parts1[at].entries| && parts1[at].entries[k] == Entry(t, false)
               && parts2 == parts1[at := Part(
                    Some(if parts1[at].stable.Some? then Compacted(parts1[at].stable.value + t.ranges) else t.ranges),
                    parts1[at].entries[..k] + parts1[at].entries[k + 1..])]
    ensures CompactParts(parts2) == CommitTask(parts0, t)
  {
    var dst := t.meta.dst;
    RetainedSource(parts0, parts1, epoch, t);
    assert parts1[dst] == parts0[dst];
    OccursMember(Ins(parts0[dst].entries), t);
    HalvesMember(parts0[dst].entries, false, t);
    assert Entry(t, false) in parts1[dst].entries;
    assert at == dst by {
      if at != dst {
        OnlyThere(parts0, epoch, Entry(t, false), at);
        DropMember(parts0[at].entries, Entry(t, true), Entry(t, false));
      }
    }
    RemoveAtIsDrop(parts0[dst].entries, k, t);
    if parts0[dst].stable.None? {
      assert [] + t.ranges == t.ranges;
      CompactedCanonical(t.ranges);
    }
    assert parts2 == CommitTask(parts0, t);
    CommitGood(parts0, epoch, t);
    assert CanonicalParts(parts2) by {
      assert forall i :: 0 <= i < |parts2| ==> GoodPart(parts2[i], i, |parts2|, epoch);
    }
    CompactPartsCanonical(parts2);
  }

  /** Committing by ranges and epoch: succeeds exactly when a migration with these
      ranges and this epoch is stored, and then commits that one. */
  method CommitMigration(parts0: seq<Part>, ranges: RangeList, taskEpoch: nat, ghost epoch: nat)
    returns (done: bool, parts: seq<Part>, ghost t: Task)
    requires SlotsInv(parts0, epoch)
    ensures done <==> exists u :: u in AllOuts(parts0) && u.ranges == ranges && u.meta.epoch == taskEpoch
    ensures done ==> t in AllOuts(parts0) && t.ranges == ranges && t.meta.epoch == taskEpoch
    ensures done ==> StoredAt(parts0, t, epoch) && parts == CommitTask(parts0, t)
    ensures !done ==> parts == parts0
  {
    done, parts, t := false, parts0, Task([], Meta(0, 0, 0));
    var src := FindHalf(parts, ranges, taskEpoch, true);
    if src.None? {
      NoneStored(parts0, epoch, ranges, taskEpoch);
      return;
    }
    TwinMatches(parts, epoch, ranges, taskEpoch, src.value);
    var dst := FindHalf(parts, ranges, taskEpoch, false);
    if dst.None? {
      assert false;
    }
    var task := Task(ranges, Meta(taskEpoch, src.value, dst.value));
    FoundTask(parts, epoch, ranges, taskEpoch, src.value, dst.value);
    ghost var at, k;
    parts := RetainOthers(parts, Entry(task, true));
    ghost var parts1 := parts;
    parts, at, k := TakeIn(parts, task);
    StepsAreCommit(parts0, parts1, parts, epoch, task, at, k);
    parts := CompactSlots(parts);
    done, t := true, task;
  }

  lemma NoneStored(parts: seq<Part>, epoch: nat, ranges: RangeList, taskEpoch: nat)
    requires GoodParts(parts, epoch)
    requires forall i, e :: 0 <= i < |parts| && e in parts[i].entries ==> !Matches(e, ranges, taskEpoch, true)
    ensures forall u :: u in AllOuts(parts) ==> !(u.ranges == ranges && u.meta.epoch == taskEpoch)
  {
    forall u | u in AllOuts(parts) ensures !(u.ranges == ranges && u.meta.epoch == taskEpoch) {
      var i := HalfAt(parts, epoch, true, u);
      assert !Matches(Entry(u, true), ranges, taskEpoch, true);
    }
  }
}

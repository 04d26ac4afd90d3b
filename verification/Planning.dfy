/** What the two planners share: storing planned tasks in the cluster
    (src/broker/migrate.rs, assign_dst_slots and compact_slots). */
module Planning {
  import opened Ranges
  import opened Shares
  import opened ClusterState

  /** The slots the tasks bring to master `j`. */
  ghost function SizeTo(ts: seq<Task>, j: nat): nat {
    if ts == [] then 0 else (if ts[0].meta.dst == j then Size(ts[0].ranges) else 0) + SizeTo(ts[1..], j)
  }

  /** The tasks leaving master `k`, in order. */
  ghost function From(ts: seq<Task>, k: nat): seq<Task> {
    if ts == [] then []
    else if ts[0].meta.src == k then [ts[0]] + From(ts[1..], k)
    else From(ts[1..], k)
  }

  lemma {:induction false} SizeToSnoc(ts: seq<Task>, t: Task, j: nat)
    ensures SizeTo(ts + [t], j) == SizeTo(ts, j) + if t.meta.dst == j then Size(t.ranges) else 0
  {
    if ts == [] {
      assert ts + [t] == [t];
    } else {
      assert (ts + [t])[1..] == ts[1..] + [t];
      SizeToSnoc(ts[1..], t, j);
    }
  }

  lemma TaskCoverSnoc(ts: seq<Task>, t: Task, s: nat)
    ensures TaskCover(ts + [t], s) == TaskCover(ts, s) + Cover(t.ranges, s)
  {
    TaskCoverAppend(ts, [t], s);
  }

  lemma {:induction false} FromAppend(a: seq<Task>, b: seq<Task>, k: nat)
    ensures From(a + b, k) == From(a, k) + From(b, k)
  {
    if a == [] {
      assert a + b == b;
    } else {
      assert (a + b)[1..] == a[1..] + b;
      FromAppend(a[1..], b, k);
      if a[0].meta.src == k {
        assert From(a, k) + From(b, k) == [a[0]] + (From(a[1..], k) + From(b, k));
      }
    }
  }

  lemma {:induction false} FromOne(ts: seq<Task>, src: nat, k: nat)
    requires forall i :: 0 <= i < |ts| ==> ts[i].meta.src == src
    ensures From(ts, k) == if k == src then ts else []
  {
    if ts != [] {
      FromOne(ts[1..], src, k);
    }
  }

  // ----- storing tasks -----

  /** Stores one task as a migrating entry at its source and an importing entry
      at its destination. */
  function PushTask(parts: seq<Part>, t: Task): (parts': seq<Part>)
    requires t.meta.src < |parts| && t.meta.dst < |parts|
    ensures |parts'| == |parts|
  {
    var src, dst := t.meta.src, t.meta.dst;
    var parts1 := parts[src := parts[src].(entries := parts[src].entries + [Entry(t, true)])];
    parts1[dst := parts1[dst].(entries := parts1[dst].entries + [Entry(t, false)])]
  }

  ghost predicate Placeable(ts: seq<Task>, n: nat) {
    forall t :: t in ts ==> t.meta.src < n && t.meta.dst < n && t.meta.src != t.meta.dst
  }

  function Assign(parts: seq<Part>, ts: seq<Task>): (parts': seq<Part>)
    requires forall t :: t in ts ==> t.meta.src < |parts| && t.meta.dst < |parts|
    ensures |parts'| == |parts|
  {
    if ts == [] then parts else PushTask(Assign(parts, ts[..|ts| - 1]), ts[|ts| - 1])
  }

  method AssignDstSlots(parts0: seq<Part>, tasks: seq<Task>) returns (parts: seq<Part>)
    requires Placeable(tasks, |parts0|)
    ensures parts == CompactParts(Assign(parts0, tasks))
  {
    parts := parts0;
    var i := 0;
    while i < |tasks|
      invariant 0 <= i <= |tasks|
      invariant parts == Assign(parts0, tasks[..i])
    {
      var t := tasks[i];
      var src, dst := t.meta.src, t.meta.dst;
      parts := parts[src := parts[src].(entries := parts[src].entries + [Entry(t, true)])];
      parts := parts[dst := parts[dst].(entries := parts[dst].entries + [Entry(t, false)])];
      assert tasks[..i + 1][..i] == tasks[..i];
      i := i + 1;
    }
    assert tasks[..i] == tasks;
    parts := CompactSlots(parts);
  }

  // ----- compact_slots -----

  function CompactEntries(es: seq<Entry>): (es': seq<Entry>)
    ensures |es'| == |es|
    ensures forall i :: 0 <= i < |es| ==>
              es'[i] == Entry(Task(Compacted(es[i].task.ranges), es[i].task.meta), es[i].migrating)
  {
    seq(|es|, i requires 0 <= i < |es| =>
      Entry(Task(Compacted(es[i].task.ranges), es[i].task.meta), es[i].migrating))
  }

  function CompactPart(p: Part): Part {
    Part(if p.stable.Some? then Some(Compacted(p.stable.value)) else None, CompactEntries(p.entries))
  }

  function CompactParts(parts: seq<Part>): (parts': seq<Part>)
    ensures |parts'| == |parts|
    ensures forall i :: 0 <= i < |parts| ==> parts'[i] == CompactPart(parts[i])
  {
    seq(|parts|, i requires 0 <= i < |parts| => CompactPart(parts[i]))
  }

  method CompactSlots(parts0: seq<Part>) returns (parts: seq<Part>)
    ensures parts == CompactParts(parts0)
  {
    parts := parts0;
    var i := 0;
    while i < |parts|
      invariant 0 <= i <= |parts| == |parts0|
      invariant forall k :: 0 <= k < i ==> parts[k] == CompactPart(parts0[k])
      invariant forall k :: i <= k < |parts| ==> parts[k] == parts0[k]
    {
      var stable := parts[i].stable;
      if stable.Some? {
        stable := Some(Compacted(stable.value));
      }
      var es := parts[i].entries;
      var j := 0;
      while j < |es|
        invariant 0 <= j <= |es| == |parts[i].entries|
        invariant forall k :: 0 <= k < j ==> es[k] == CompactEntries(parts[i].entries)[k]
        invariant forall k :: j <= k < |es| ==> es[k] == parts[i].entries[k]
      {
        es := es[j := Entry(Task(Compacted(es[j].task.ranges), es[j].task.meta), es[j].migrating)];
        j := j + 1;
      }
      parts := parts[i := Part(stable, es)];
      i := i + 1;
    }
  }

  ghost predicate CanonicalParts(parts: seq<Part>) {
    forall i :: 0 <= i < |parts| ==>
      && (parts[i].stable.Some? ==> Canonical(parts[i].stable.value))
      && forall e :: e in parts[i].entries ==> Canonical(e.task.ranges)
  }

  /** Under the invariant all lists are canonical and compacting changes nothing. */
  lemma CompactPartsCanonical(parts: seq<Part>)
    requires CanonicalParts(parts)
    ensures CompactParts(parts) == parts
  {
    forall i | 0 <= i < |parts| ensures CompactPart(parts[i]) == parts[i] {
      if parts[i].stable.Some? {
        CompactedCanonical(parts[i].stable.value);
      }
      forall k | 0 <= k < |parts[i].entries| ensures CompactEntries(parts[i].entries)[k] == parts[i].entries[k] {
        assert parts[i].entries[k] in parts[i].entries;
        CompactedCanonical(parts[i].entries[k].task.ranges);
      }
    }
  }

  // ----- what storing tasks does to the state -----

  lemma PushTaskPart(parts: seq<Part>, t: Task, k: nat)
    requires t.meta.src < |parts| && t.meta.dst < |parts| && t.meta.src != t.meta.dst && k < |parts|
    ensures PushTask(parts, t)[k].stable == parts[k].stable
    ensures Outs(PushTask(parts, t)[k].entries) == Outs(parts[k].entries) + if k == t.meta.src then [t] else []
    ensures Ins(PushTask(parts, t)[k].entries) == Ins(parts[k].entries) + if k == t.meta.dst then [t] else []
    ensures forall e :: e in PushTask(parts, t)[k].entries <==>
              e in parts[k].entries || (k == t.meta.src && e == Entry(t, true)) ||
              (k == t.meta.dst && e == Entry(t, false))
  {
    var e := Entry(t, k == t.meta.src);
    HalvesAppend(parts[k].entries, [e], true);
    HalvesAppend(parts[k].entries, [e], false);
  }

  lemma PushTaskHalves(parts: seq<Part>, t: Task, m: bool, x: Task)
    requires t.meta.src < |parts| && t.meta.dst < |parts| && t.meta.src != t.meta.dst
    ensures Occurs(AllHalves(PushTask(parts, t), m), x) == Occurs(AllHalves(parts, m), x) + if x == t then 1 else 0
  {
    var src, dst := t.meta.src, t.meta.dst;
    var p1 := parts[src].(entries := parts[src].entries + [Entry(t, true)]);
    var parts1 := parts[src := p1];
    var p2 := parts1[dst].(entries := parts1[dst].entries + [Entry(t, false)]);
    AllHalvesUpdate(parts, src, p1, m, x);
    AllHalvesUpdate(parts1, dst, p2, m, x);
    HalvesAppend(parts[src].entries, [Entry(t, true)], m);
    HalvesAppend(parts1[dst].entries, [Entry(t, false)], m);
    OccursAppend(Halves(parts[src].entries, m), Halves([Entry(t, true)], m), x);
    OccursAppend(Halves(parts1[dst].entries, m), Halves([Entry(t, false)], m), x);
  }

  lemma {:induction false} AssignHalves(parts: seq<Part>, ts: seq<Task>, m: bool, x: Task)
    requires Placeable(ts, |parts|)
    ensures Occurs(AllHalves(Assign(parts, ts), m), x) == Occurs(AllHalves(parts, m), x) + Occurs(ts, x)
  {
    if ts != [] {
      var n := |ts| - 1;
      var prev := Assign(parts, ts[..n]);
      assert Assign(parts, ts) == PushTask(prev, ts[n]) && ts == ts[..n] + [ts[n]];
      assert Occurs([ts[n]], x) == if x == ts[n] then 1 else 0;
      hide *;
      AssignHalves(parts, ts[..n], m, x);
      PushTaskHalves(prev, ts[n], m, x);
      OccursAppend(ts[..n], [ts[n]], x);
    }
  }

  lemma {:induction false} AssignOuts(parts: seq<Part>, ts: seq<Task>, k: nat)
    requires Placeable(ts, |parts|) && k < |parts|
    ensures Assign(parts, ts)[k].stable == parts[k].stable
    ensures Outs(Assign(parts, ts)[k].entries) == Outs(parts[k].entries) + From(ts, k)
  {
    if ts == [] {
      assert Outs(parts[k].entries) + [] == Outs(parts[k].entries);
    } else {
      var n := |ts| - 1;
      var t, outs, prev := ts[n], Outs(parts[k].entries), Assign(parts, ts[..n]);
      assert Assign(parts, ts) == PushTask(prev, t) && ts == ts[..n] + [t];
      assert From([t], k) == if k == t.meta.src then [t] else [];
      hide *;
      AssignOuts(parts, ts[..n], k);
      PushTaskPart(prev, t, k);
      FromAppend(ts[..n], [t], k);
      assert outs + From(ts, k) == outs + From(ts[..n], k) + From([t], k);
    }
  }

  lemma {:induction false} AssignIns(parts: seq<Part>, ts: seq<Task>, k: nat)
    requires Placeable(ts, |parts|) && k < |parts|
    ensures TaskSize(Ins(Assign(parts, ts)[k].entries)) == TaskSize(Ins(parts[k].entries)) + SizeTo(ts, k)
  {
    if ts != [] {
      var n := |ts| - 1;
      var t, prev := ts[n], Assign(parts, ts[..n]);
      var add := if k == t.meta.dst then [t] else [];
      assert Assign(parts, ts) == PushTask(prev, t) && ts == ts[..n] + [t];
      assert TaskSize(add) == if k == t.meta.dst then Size(t.ranges) else 0;
      hide *;
      AssignIns(parts, ts[..n], k);
      PushTaskPart(prev, t, k);
      SizeToSnoc(ts[..n], t, k);
      TaskSizeAppend(Ins(prev[k].entries), add);
    }
  }

  lemma {:induction false} AssignEntries(parts: seq<Part>, ts: seq<Task>, k: nat, e: Entry)
    requires Placeable(ts, |parts|) && k < |parts| && e in Assign(parts, ts)[k].entries
    ensures e in parts[k].entries || (e.task in ts && k == if e.migrating then e.task.meta.src else e.task.meta.dst)
  {
    if ts != [] {
      var n := |ts| - 1;
      PushTaskPart(Assign(parts, ts[..n]), ts[n], k);
      if e in Assign(parts, ts[..n])[k].entries {
        AssignEntries(parts, ts[..n], k, e);
      }
    }
  }

  // ----- a sound plan leads from one good state to another -----

  /** No slot is lost or duplicated, and every slot stays with its source: as a
      stable slot or in one of the source's tasks. */
  ghost predicate PlanConserves(parts0: seq<Part>, parts: seq<Part>, tasks: seq<Task>)
    requires |parts0| == |parts|
  {
    forall k, s: nat :: 0 <= k < |parts| ==>
      Cover(Stored(parts0[k].stable), s) == Cover(Stored(parts[k].stable), s) + TaskCover(From(tasks, k), s)
  }

  /** What a planner hands over: `parts` keeps what stays, `tasks` carry the rest. */
  ghost predicate GoodPlan(parts0: seq<Part>, parts: seq<Part>, tasks: seq<Task>, epoch: nat) {
    && |parts| == |parts0| && NoEntries(parts) && Placeable(tasks, |parts|)
    && (forall i :: 0 <= i < |parts| && parts[i].stable.Some? ==>
          parts[i].stable.value != [] && Canonical(parts[i].stable.value))
    && (forall t :: t in tasks ==> GoodTask(t, |parts|, epoch) && t.meta.epoch == epoch)
    && PlanConserves(parts0, parts, tasks)
    && Rooted(parts)
  }

  ghost predicate PlanBalanced(parts: seq<Part>, tasks: seq<Task>, target: nat) {
    && 0 < target <= |parts| && target <= SLOT_NUM && target % 2 == 0
    && forall i :: 0 <= i < |parts| ==> Size(Stored(parts[i].stable)) + SizeTo(tasks, i) == Share(target, i)
  }

  /** A migration was started: owners are as before, all of it carries the new
      epoch, and when it is over the first `target` masters share the slots evenly. */
  ghost predicate Started(parts0: seq<Part>, parts: seq<Part>, epoch: nat, target: nat) {
    && SameOwners(parts0, parts)
    && Balanced(parts, target)
    && forall i, e :: 0 <= i < |parts| && e in parts[i].entries ==> e.task.meta.epoch == epoch
  }

  lemma AssignGood(parts0: seq<Part>, parts: seq<Part>, tasks: seq<Task>, epoch: nat)
    requires GoodPlan(parts0, parts, tasks, epoch)
    ensures GoodParts(Assign(parts, tasks), epoch)
    ensures forall i, e :: 0 <= i < |parts| && e in Assign(parts, tasks)[i].entries ==> e.task.meta.epoch == epoch
    ensures CompactParts(Assign(parts, tasks)) == Assign(parts, tasks)
  {
    var parts' := Assign(parts, tasks);
    forall i | 0 <= i < |parts| ensures GoodPart(parts'[i], i, |parts|, epoch) {
      AssignOuts(parts, tasks, i);
      forall e | e in parts'[i].entries
        ensures e.task in tasks && i == if e.migrating then e.task.meta.src else e.task.meta.dst
      {
        AssignEntries(parts, tasks, i, e);
      }
    }
    forall i, e | 0 <= i < |parts| && e in parts'[i].entries ensures e.task.meta.epoch == epoch {
      AssignEntries(parts, tasks, i, e);
    }
    assert CanonicalParts(parts') by {
      assert forall i :: 0 <= i < |parts'| ==> GoodPart(parts'[i], i, |parts|, epoch);
    }
    CompactPartsCanonical(parts');
  }

  lemma AssignOwners(parts0: seq<Part>, parts: seq<Part>, tasks: seq<Task>)
    requires NoEntries(parts0) && |parts| == |parts0| && NoEntries(parts) && Placeable(tasks, |parts|)
    requires PlanConserves(parts0, parts, tasks)
    ensures SameOwners(parts0, Assign(parts, tasks))
  {
    var parts' := Assign(parts, tasks);
    forall i, s: nat | 0 <= i < |parts| ensures Own(parts0[i], s) == Own(parts'[i], s) {
      AssignOuts(parts, tasks, i);
      assert Outs(parts'[i].entries) == From(tasks, i);
      assert Cover(Stored(parts0[i].stable), s) ==
             Cover(Stored(parts[i].stable), s) + TaskCover(From(tasks, i), s);
    }
  }

  lemma AssignTwins(parts: seq<Part>, tasks: seq<Task>)
    requires NoEntries(parts) && Placeable(tasks, |parts|)
    ensures Twins(Assign(parts, tasks))
    ensures Permuted(AllOuts(Assign(parts, tasks)), tasks)
  {
    NoEntriesNoTasks(parts, true);
    NoEntriesNoTasks(parts, false);
    forall x
      ensures Occurs(AllOuts(Assign(parts, tasks)), x) == Occurs(tasks, x) == Occurs(AllIns(Assign(parts, tasks)), x)
    {
      AssignHalves(parts, tasks, true, x);
      AssignHalves(parts, tasks, false, x);
    }
  }

  lemma AssignBalanced(parts: seq<Part>, tasks: seq<Task>, target: nat)
    requires NoEntries(parts) && Placeable(tasks, |parts|) && PlanBalanced(parts, tasks, target)
    ensures Balanced(Assign(parts, tasks), target)
  {
    forall i | 0 <= i < |parts| ensures FinalSize(Assign(parts, tasks)[i]) == Share(target, i) {
      AssignOuts(parts, tasks, i);
      AssignIns(parts, tasks, i);
    }
  }

  lemma PlanStarts(parts0: seq<Part>, parts: seq<Part>, tasks: seq<Task>, epoch0: nat, epoch: nat, target: nat)
    requires SlotsInv(parts0, epoch0) && NoEntries(parts0)
    requires GoodPlan(parts0, parts, tasks, epoch) && PlanBalanced(parts, tasks, target)
    ensures SlotsInv(CompactParts(Assign(parts, tasks)), epoch)
    ensures Started(parts0, CompactParts(Assign(parts, tasks)), epoch, target)
  {
    AssignGood(parts0, parts, tasks, epoch);
    AssignOwners(parts0, parts, tasks);
    SameOwnersPartition(parts0, Assign(parts, tasks));
    AssignTwins(parts, tasks);
    AssignBalanced(parts, tasks, target);
    AssignOuts(parts, tasks, 0);
  }
}

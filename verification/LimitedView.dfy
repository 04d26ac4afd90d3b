/** The view of a cluster in which only some stored migrations are running
    (src/broker/store.rs, limit_migration). */
module LimitedView {
  import opened Ranges
  import opened ClusterState
  import opened Planning
  import opened Commit
  import opened Failover

  // ----- which migrations run -----

  /** A stored migration has to wait when `limit` others run already or when one
      from the same part does. */
  predicate Waits(running: seq<Task>, t: Task, limit: nat) {
    |running| >= limit || exists u :: u in running && u.meta.src == t.meta.src
  }

  function Chosen(ts: seq<Task>, limit: nat): seq<Task> {
    if ts == [] then []
    else
      var running := Chosen(ts[..|ts| - 1], limit);
      if Waits(running, ts[|ts| - 1], limit) then running else running + [ts[|ts| - 1]]
  }

  /** The migrations running in the view; a limit of zero means no limit. */
  function Active(parts: seq<Part>, limit: nat): seq<Task> {
    if limit == 0 then AllOuts(parts) else Chosen(AllOuts(parts), limit)
  }

  // ----- the view -----

  predicate Located(ts: seq<Task>, n: nat) {
    forall t :: t in ts ==> t.meta.src < n && t.meta.dst < n
  }

  /** A waiting migration: its slots appear as stable slots of the source. */
  function Absorb(view: seq<Part>, t: Task): (view': seq<Part>)
    requires t.meta.src < |view|
    ensures |view'| == |view|
  {
    var src := t.meta.src;
    view[src := view[src].(stable := Some(Compacted(Stored(view[src].stable) + t.ranges)))]
  }

  function Shown(base: seq<Part>, ts: seq<Task>, limit: nat): (view: seq<Part>)
    requires Located(ts, |base|)
    ensures |view| == |base|
  {
    if ts == [] then base
    else
      var n := |ts| - 1;
      var view := Shown(base, ts[..n], limit);
      if Waits(Chosen(ts[..n], limit), ts[n], limit) then Absorb(view, ts[n]) else PushTask(view, ts[n])
  }

  function Cleared(parts: seq<Part>): (base: seq<Part>)
    ensures |base| == |parts| && NoEntries(base)
    ensures forall i :: 0 <= i < |parts| ==> base[i].stable == parts[i].stable
  {
    seq(|parts|, i requires 0 <= i < |parts| => Part(parts[i].stable, []))
  }

  function View(parts: seq<Part>, limit: nat): (view: seq<Part>)
    requires Located(AllOuts(parts), |parts|)
    ensures |view| == |parts|
  {
    if limit == 0 then parts else Shown(Cleared(parts), AllOuts(parts), limit)
  }

  lemma GoodLocated(parts: seq<Part>, epoch: nat)
    requires GoodParts(parts, epoch)
    ensures Located(AllOuts(parts), |parts|)
    ensures forall t :: t in AllOuts(parts) ==> GoodTask(t, |parts|, epoch)
  {
    forall t | t in AllOuts(parts) ensures GoodTask(t, |parts|, epoch) {
      var i := HalfAt(parts, epoch, true, t);
    }
  }

  // ----- how many run -----

  lemma {:induction false} ChosenMember(ts: seq<Task>, limit: nat, t: Task)
    requires t in Chosen(ts, limit)
    ensures t in ts
  {
    var n := |ts| - 1;
    if t in Chosen(ts[..n], limit) {
      ChosenMember(ts[..n], limit, t);
    }
  }

  /** At most `limit` run, at most one out of each part. */
  lemma {:induction false} ChosenLimited(ts: seq<Task>, limit: nat)
    ensures |Chosen(ts, limit)| <= limit
    ensures forall i, j :: 0 <= i < j < |Chosen(ts, limit)| ==>
              Chosen(ts, limit)[i].meta.src != Chosen(ts, limit)[j].meta.src
  {
    if ts != [] {
      ChosenLimited(ts[..|ts| - 1], limit);
    }
  }

  /** No running slot is wasted: below the limit every part with a stored outgoing
      migration has one running. */
  lemma {:induction false} ChosenMaximal(ts: seq<Task>, limit: nat, t: Task)
    requires t in ts && |Chosen(ts, limit)| < limit
    ensures exists u :: u in Chosen(ts, limit) && u.meta.src == t.meta.src
  {
    var n := |ts| - 1;
    if t == ts[n] {
      if !Waits(Chosen(ts[..n], limit), t, limit) {
        assert t in Chosen(ts, limit);
      }
    } else {
      assert t in ts[..n];
      ChosenMaximal(ts[..n], limit, t);
    }
  }

  // ----- once running, running until committed -----

  lemma {:induction false} DropTaskAppend(a: seq<Task>, b: seq<Task>, t: Task)
    ensures DropTask(a + b, t) == DropTask(a, t) + DropTask(b, t)
  {
    if a == [] {
      assert a + b == b;
    } else {
      assert (a + b)[1..] == a[1..] + b;
      DropTaskAppend(a[1..], b, t);
    }
  }

  ghost function Sources(ts: seq<Task>): set<nat> {
    set t <- ts :: t.meta.src
  }

  /** How the choice without `t` relates to the choice with it: the same, or one
      less without a migration from the source of `t`, or as many from the same
      parts, or the limit was reached. */
  ghost predicate Stays(running: seq<Task>, running': seq<Task>, t: Task, limit: nat) {
    && (forall x :: x in running && x != t ==> x in running')
    && (|| |running| >= limit
        || (|running'| == |running| && Sources(running') == Sources(running))
        || (&& |running'| + 1 == |running| && t.meta.src in Sources(running)
            && Sources(running') == Sources(running) - {t.meta.src}))
  }

  lemma StaysStep(running: seq<Task>, running': seq<Task>, t: Task, limit: nat, x: Task)
    requires Stays(running, running', t, limit) && x != t
    ensures Stays(if Waits(running, x, limit) then running else running + [x],
                  if Waits(running', x, limit) then running' else running' + [x], t, limit)
  {
    assert Sources(running + [x]) == Sources(running) + {x.meta.src};
    assert Sources(running' + [x]) == Sources(running') + {x.meta.src};
    assert (exists u :: u in running && u.meta.src == x.meta.src) <==> x.meta.src in Sources(running);
    assert (exists u :: u in running' && u.meta.src == x.meta.src) <==> x.meta.src in Sources(running');
  }

  lemma DroppedNow(running: seq<Task>, t: Task, limit: nat)
    ensures Stays(if Waits(running, t, limit) then running else running + [t], running, t, limit)
  {
    assert Sources(running + [t]) == Sources(running) + {t.meta.src};
    assert (exists u :: u in running && u.meta.src == t.meta.src) <==> t.meta.src in Sources(running);
  }

  lemma {:induction false} ChosenWithout(ts: seq<Task>, limit: nat, t: Task)
    requires Occurs(ts, t) <= 1
    ensures Stays(Chosen(ts, limit), Chosen(DropTask(ts, t), limit), t, limit)
    ensures Occurs(ts, t) == 0 ==> DropTask(ts, t) == ts
  {
    if ts != [] {
      var n := |ts| - 1;
      var front, x := ts[..n], ts[n];
      assert ts == front + [x];
      OccursAppend(front, [x], t);
      DropTaskAppend(front, [x], t);
      ChosenWithout(front, limit, t);
      var dropped := DropTask(front, t);
      assert DropTask(ts, t) == dropped + if x == t then [] else [x];
      if x == t {
        assert DropTask(ts, t) == front;
        DroppedNow(Chosen(front, limit), t, limit);
      } else {
        assert (dropped + [x])[..|dropped|] == dropped;
        assert Chosen(dropped + [x], limit) ==
               var running := Chosen(dropped, limit); if Waits(running, x, limit) then running else running + [x];
        hide *;
        StaysStep(Chosen(front, limit), Chosen(dropped, limit), t, limit, x);
      }
    }
  }

  lemma {:induction false} AllOutsDropped(parts: seq<Part>, parts': seq<Part>, t: Task)
    requires |parts| == |parts'|
    requires forall i :: 0 <= i < |parts| ==> Outs(parts'[i].entries) == DropTask(Outs(parts[i].entries), t)
    ensures AllOuts(parts') == DropTask(AllOuts(parts), t)
  {
    if parts != [] {
      var n := |parts| - 1;
      AllOutsDropped(parts[..n], parts'[..n], t);
      DropTaskAppend(AllOuts(parts[..n]), Outs(parts[n].entries), t);
    }
  }

  /** A commit removes its task from the stored migrations and keeps their order. */
  lemma CommitDrops(parts: seq<Part>, epoch: nat, t: Task)
    requires SlotsInv(parts, epoch) && StoredAt(parts, t, epoch) && t in AllOuts(parts)
    ensures AllOuts(CommitTask(parts, t)) == DropTask(AllOuts(parts), t)
  {
    var parts' := CommitTask(parts, t);
    CommitParts(parts, epoch, t);
    forall i | 0 <= i < |parts| ensures Outs(parts'[i].entries) == DropTask(Outs(parts[i].entries), t) {
      if i == t.meta.src {
        DropHalves(parts[i].entries, t, true, true);
      } else {
        OnlyThere(parts, epoch, Entry(t, true), i);
        HalvesMember(parts[i].entries, true, t);
        OccursMember(Outs(parts[i].entries), t);
        DropTaskAbsent(Outs(parts[i].entries), t);
        DropHalves(parts[i].entries, t, false, true);
      }
    }
    AllOutsDropped(parts, parts', t);
  }

  /** Once running, a migration runs until it is itself committed: committing any
      other stored migration leaves it running, for every limit. */
  lemma CommitKeepsRunning(parts: seq<Part>, epoch: nat, t: Task, limit: nat)
    requires SlotsInv(parts, epoch) && t in AllOuts(parts) && StoredAt(parts, t, epoch)
    ensures forall x :: x in Active(parts, limit) && x != t ==> x in Active(CommitTask(parts, t), limit)
  {
    var ts := AllOuts(parts);
    CommitDrops(parts, epoch, t);
    if limit == 0 {
      forall x | x in ts && x != t ensures x in DropTask(ts, t) {
        OccursMember(ts, x);
        DropTaskOccurs(ts, t, x);
        OccursMember(DropTask(ts, t), x);
      }
    } else {
      ChosenWithout(ts, limit, t);
    }
  }

  lemma {:induction false} ChosenRestamped(ts: seq<Task>, limit: nat, peers: set<nat>, epoch: nat)
    ensures Chosen(RestampTasks(ts, peers, epoch), limit) == RestampTasks(Chosen(ts, limit), peers, epoch)
  {
    if ts != [] {
      var n := |ts| - 1;
      var front, x := ts[..n], ts[n];
      var front', x' := RestampTasks(front, peers, epoch), Restamp(x, peers, epoch);
      assert ts == front + [x];
      RestampTasksAppend(front, [x], peers, epoch);
      assert RestampTasks([x], peers, epoch) == [x'];
      ChosenRestamped(front, limit, peers, epoch);
      assert (front' + [x'])[..|front'|] == front';
      RestampedWaits(Chosen(front, limit), x, limit, peers, epoch);
      RestampTasksAppend(Chosen(front, limit), [x], peers, epoch);
    }
  }

  lemma {:induction false} RestampTasksAt(ts: seq<Task>, peers: set<nat>, epoch: nat)
    ensures |RestampTasks(ts, peers, epoch)| == |ts|
    ensures forall i :: 0 <= i < |ts| ==> RestampTasks(ts, peers, epoch)[i] == Restamp(ts[i], peers, epoch)
  {
    if ts != [] {
      RestampTasksAt(ts[1..], peers, epoch);
    }
  }

  lemma RestampedWaits(running: seq<Task>, x: Task, limit: nat, peers: set<nat>, epoch: nat)
    ensures Waits(RestampTasks(running, peers, epoch), Restamp(x, peers, epoch), limit) <==> Waits(running, x, limit)
  {
    var running' := RestampTasks(running, peers, epoch);
    RestampTasksAt(running, peers, epoch);
    if u :| u in running && u.meta.src == x.meta.src {
      var i :| 0 <= i < |running| && running[i] == u;
      assert running'[i] in running' && running'[i].meta.src == x.meta.src;
    }
    if u' :| u' in running' && u'.meta.src == x.meta.src {
      var i :| 0 <= i < |running'| && running'[i] == u';
      assert running[i] in running && running[i].meta.src == x.meta.src;
    }
  }

  /** A failover changes epochs of running migrations, never which ones run. */
  lemma FailoverKeepsRunning(parts: seq<Part>, limit: nat, peers: set<nat>, epoch: nat)
    ensures Active(RestampParts(parts, peers, epoch), limit) == RestampTasks(Active(parts, limit), peers, epoch)
  {
    RestampAllHalves(parts, peers, epoch, true);
    ChosenRestamped(AllOuts(parts), limit, peers, epoch);
  }

  // ----- what the view shows -----

  lemma {:induction false} ShownHalves(base: seq<Part>, ts: seq<Task>, limit: nat, m: bool, x: Task)
    requires Located(ts, |base|) && Placeable(ts, |base|) && NoEntries(base)
    ensures Occurs(AllHalves(Shown(base, ts, limit), m), x) == Occurs(Chosen(ts, limit), x)
  {
    if ts == [] {
      NoEntriesNoTasks(base, m);
    } else {
      var n := |ts| - 1;
      var t, view, running := ts[n], Shown(base, ts[..n], limit), Chosen(ts[..n], limit);
      ShownHalves(base, ts[..n], limit, m, x);
      if Waits(running, t, limit) {
        AllHalvesUpdate(view, t.meta.src, Absorb(view, t)[t.meta.src], m, x);
      } else {
        PushTaskHalves(view, t, m, x);
        OccursAppend(running, [t], x);
      }
    }
  }

  /** What one step shows of each part. */
  ghost predicate ShowsOwn(base: seq<Part>, ts: seq<Task>, view: seq<Part>) {
    && |view| == |base|
    && forall i, s: nat :: 0 <= i < |base| ==>
         Own(view[i], s) == Cover(Stored(base[i].stable), s) + TaskCover(From(ts, i), s)
  }

  ghost predicate Apart(base: seq<Part>, ts: seq<Task>) {
    forall i, s: nat :: 0 <= i < |base| ==>
      Cover(Stored(base[i].stable), s) + TaskCover(From(ts, i), s) <= 1
  }

  lemma FromSnoc(ts: seq<Task>, t: Task, i: nat, s: nat)
    ensures TaskCover(From(ts + [t], i), s) ==
            TaskCover(From(ts, i), s) + if t.meta.src == i then Cover(t.ranges, s) else 0
  {
    FromAppend(ts, [t], i);
    TaskCoverAppend(From(ts, i), From([t], i), s);
  }

  lemma AbsorbShows(base: seq<Part>, ts: seq<Task>, t: Task, view: seq<Part>, epoch: nat)
    requires ShowsOwn(base, ts, view) && GoodParts(view, epoch)
    requires GoodTask(t, |base|, epoch) && Apart(base, ts + [t])
    ensures ShowsOwn(base, ts + [t], Absorb(view, t)) && GoodParts(Absorb(view, t), epoch)
  {
    var src, view' := t.meta.src, Absorb(view, t);
    var stable := Stored(view[src].stable);
    assert GoodPart(view[src], src, |view|, epoch);
    forall s: nat ensures Cover(stable, s) + Cover(t.ranges, s) <= 1 {
      FromSnoc(ts, t, src, s);
      assert Own(view[src], s) == Cover(Stored(base[src].stable), s) + TaskCover(From(ts, src), s);
    }
    Merged(stable, t.ranges);
    forall i, s: nat | 0 <= i < |base|
      ensures Own(view'[i], s) == Cover(Stored(base[i].stable), s) + TaskCover(From(ts + [t], i), s)
    {
      FromSnoc(ts, t, i, s);
      assert Own(view[i], s) == Cover(Stored(base[i].stable), s) + TaskCover(From(ts, i), s);
    }
    forall i | 0 <= i < |view| ensures GoodPart(view'[i], i, |view|, epoch) {
      assert GoodPart(view[i], i, |view|, epoch);
    }
  }

  lemma PushShows(base: seq<Part>, ts: seq<Task>, t: Task, view: seq<Part>, epoch: nat)
    requires ShowsOwn(base, ts, view) && GoodParts(view, epoch) && GoodTask(t, |base|, epoch)
    ensures ShowsOwn(base, ts + [t], PushTask(view, t)) && GoodParts(PushTask(view, t), epoch)
  {
    var view' := PushTask(view, t);
    forall i, s: nat | 0 <= i < |base|
      ensures Own(view'[i], s) == Cover(Stored(base[i].stable), s) + TaskCover(From(ts + [t], i), s)
    {
      FromSnoc(ts, t, i, s);
      PushTaskPart(view, t, i);
      TaskCoverAppend(Outs(view[i].entries), if i == t.meta.src then [t] else [], s);
      assert Own(view[i], s) == Cover(Stored(base[i].stable), s) + TaskCover(From(ts, i), s);
    }
    forall i | 0 <= i < |view| ensures GoodPart(view'[i], i, |view|, epoch) {
      assert GoodPart(view[i], i, |view|, epoch);
      PushTaskPart(view, t, i);
    }
  }

  lemma {:induction false} ShownOwners(base: seq<Part>, ts: seq<Task>, limit: nat, epoch: nat)
    requires NoEntries(base) && GoodParts(base, epoch) && Apart(base, ts)
    requires forall t :: t in ts ==> GoodTask(t, |base|, epoch)
    requires Located(ts, |base|)
    ensures ShowsOwn(base, ts, Shown(base, ts, limit)) && GoodParts(Shown(base, ts, limit), epoch)
  {
    if ts != [] {
      var n := |ts| - 1;
      var front, t := ts[..n], ts[n];
      assert ts == front + [t];
      forall i, s: nat | 0 <= i < |base|
        ensures Cover(Stored(base[i].stable), s) + TaskCover(From(front, i), s) <= 1
      {
        FromSnoc(front, t, i, s);
      }
      var view := Shown(base, front, limit);
      ShownOwners(base, front, limit, epoch);
      if Waits(Chosen(front, limit), t, limit) {
        AbsorbShows(base, front, t, view, epoch);
      } else {
        PushShows(base, front, t, view, epoch);
      }
    }
  }

  lemma {:induction false} FromAllOuts(parts: seq<Part>, epoch: nat, j: nat, i: nat)
    requires GoodParts(parts, epoch) && j <= |parts| && i < |parts|
    ensures From(AllOuts(parts[..j]), i) == if i < j then Outs(parts[i].entries) else []
  {
    if j > 0 {
      var k := j - 1;
      assert parts[..j][..k] == parts[..k] && parts[..j][k] == parts[k];
      FromAllOuts(parts, epoch, k, i);
      FromAppend(AllOuts(parts[..k]), Outs(parts[k].entries), i);
      forall x | 0 <= x < |Outs(parts[k].entries)| ensures Outs(parts[k].entries)[x].meta.src == k {
        HalvesMember(parts[k].entries, true, Outs(parts[k].entries)[x]);
        assert GoodPart(parts[k], k, |parts|, epoch);
      }
      FromOne(Outs(parts[k].entries), k, i);
    }
  }

  lemma {:induction false} OwnMember(parts: seq<Part>, i: nat, s: nat)
    requires i < |parts|
    ensures Own(parts[i], s) <= OwnSum(parts, s)
  {
    if i < |parts| - 1 {
      OwnMember(parts[..|parts| - 1], i, s);
    }
  }

  /** The view keeps every slot with its current owner, keeps the partition, pairs
      the halves, and stores exactly the running migrations. */
  lemma ViewIsConsistent(parts: seq<Part>, epoch: nat, limit: nat)
    requires SlotsInv(parts, epoch)
    ensures Located(AllOuts(parts), |parts|)
    ensures SameOwners(parts, View(parts, limit)) && Partition(View(parts, limit))
    ensures GoodParts(View(parts, limit), epoch) && Twins(View(parts, limit))
    ensures Permuted(AllOuts(View(parts, limit)), Active(parts, limit))
  {
    GoodLocated(parts, epoch);
    var base, ts, view := Cleared(parts), AllOuts(parts), View(parts, limit);
    if limit > 0 {
      BaseIsReady(parts, epoch);
      ShownOwners(base, ts, limit, epoch);
      forall i, s: nat | 0 <= i < |parts| ensures Own(parts[i], s) == Own(view[i], s) {
        BaseOwns(parts, epoch, i, s);
        assert ShowsOwn(base, ts, view);
      }
      forall x ensures Occurs(AllOuts(view), x) == Occurs(Chosen(ts, limit), x) == Occurs(AllIns(view), x) {
        ShownHalves(base, ts, limit, true, x);
        ShownHalves(base, ts, limit, false, x);
      }
      SameOwnersPartition(parts, view);
    }
  }

  lemma BaseOwns(parts: seq<Part>, epoch: nat, i: nat, s: nat)
    requires GoodParts(parts, epoch) && i < |parts|
    ensures Own(parts[i], s) ==
            Cover(Stored(Cleared(parts)[i].stable), s) + TaskCover(From(AllOuts(parts), i), s)
  {
    assert parts[..|parts|] == parts;
    FromAllOuts(parts, epoch, |parts|, i);
  }

  lemma BaseIsReady(parts: seq<Part>, epoch: nat)
    requires SlotsInv(parts, epoch)
    ensures GoodParts(Cleared(parts), epoch) && Apart(Cleared(parts), AllOuts(parts))
    ensures Placeable(AllOuts(parts), |parts|)
  {
    var base := Cleared(parts);
    GoodLocated(parts, epoch);
    forall i | 0 <= i < |parts| ensures GoodPart(base[i], i, |parts|, epoch) {
      assert GoodPart(parts[i], i, |parts|, epoch);
    }
    forall i, s: nat | 0 <= i < |parts|
      ensures Cover(Stored(base[i].stable), s) + TaskCover(From(AllOuts(parts), i), s) <= 1
    {
      BaseOwns(parts, epoch, i, s);
      OwnMember(parts, i, s);
      OwnSumIsCover(parts, s);
      assert StableCover(parts, s) + TaskCover(AllOuts(parts), s) <= 1;
    }
  }

  // ----- whole runs -----

  datatype Event = Committed(task: Task) | FailedOver(peers: set<nat>, epoch: nat)

  /** A migration after an event that did not commit it. */
  function After(x: Task, e: Event): Task {
    if e.FailedOver? then Restamp(x, e.peers, e.epoch) else x
  }

  /** A migration after the first `k` events. */
  function Track(x: Task, events: seq<Event>, k: nat): Task
    requires k <= |events|
  {
    if k == 0 then x else After(Track(x, events, k - 1), events[k - 1])
  }

  ghost predicate EventStep(parts: seq<Part>, epoch: nat, e: Event, parts': seq<Part>, epoch': nat, limit: nat) {
    match e
    case Committed(t) =>
      && t in Active(parts, limit) && t.meta.src < |parts| && t.meta.dst < |parts|
      && epoch' == epoch && parts' == CommitTask(parts, t)
    case FailedOver(peers, newEpoch) =>
      && epoch < newEpoch == epoch'
      && parts' == RestampParts(parts, peers, newEpoch)
  }

  /** A run in which running migrations are committed and proxies fail over. */
  ghost predicate Run(states: seq<seq<Part>>, epochs: seq<nat>, events: seq<Event>, limit: nat) {
    && |states| == |epochs| == |events| + 1
    && forall k :: 0 <= k < |events| ==>
         EventStep(states[k], epochs[k], events[k], states[k + 1], epochs[k + 1], limit)
  }

  /** Commits among the first `k` events. */
  function Commits(events: seq<Event>, k: nat): nat
    requires k <= |events|
  {
    if k == 0 then 0 else Commits(events, k - 1) + if events[k - 1].Committed? then 1 else 0
  }

  lemma ActiveStored(parts: seq<Part>, limit: nat, t: Task)
    requires t in Active(parts, limit)
    ensures t in AllOuts(parts)
  {
    if limit > 0 {
      ChosenMember(AllOuts(parts), limit, t);
    }
  }

  lemma {:induction false} DropTaskLength(ts: seq<Task>, t: Task)
    ensures |DropTask(ts, t)| + Occurs(ts, t) == |ts|
  {
    if ts != [] {
      DropTaskLength(ts[1..], t);
    }
  }

  lemma EventKeeps(parts: seq<Part>, epoch: nat, e: Event, parts': seq<Part>, epoch': nat, limit: nat)
    requires SlotsInv(parts, epoch) && EventStep(parts, epoch, e, parts', epoch', limit)
    ensures SlotsInv(parts', epoch')
    ensures |AllOuts(parts')| + (if e.Committed? then 1 else 0) == |AllOuts(parts)|
    ensures forall x :: x in Active(parts, limit) && e != Committed(x) ==> After(x, e) in Active(parts', limit)
  {
    match e
    case Committed(t) =>
      ActiveStored(parts, limit, t);
      CommitKeepsInv(parts, epoch, t);
      CommitKeepsRunning(parts, epoch, t, limit);
      CommitDrops(parts, epoch, t);
      DropTaskLength(AllOuts(parts), t);
    case FailedOver(peers, newEpoch) =>
      RestampKeepsInv(parts, peers, epoch, newEpoch);
      FailoverKeepsRunning(parts, limit, peers, newEpoch);
      RestampAllHalves(parts, peers, newEpoch, true);
      RestampTasksAt(AllOuts(parts), peers, newEpoch);
      forall x | x in Active(parts, limit) ensures After(x, e) in Active(parts', limit) {
        RestampTasksAt(Active(parts, limit), peers, newEpoch);
        var i :| 0 <= i < |Active(parts, limit)| && Active(parts, limit)[i] == x;
        assert RestampTasks(Active(parts, limit), peers, newEpoch)[i] == After(x, e);
      }
  }

  /** Over every run the invariant holds; each commit uses up one stored migration,
      so there are never more commits than migrations; and while any is stored, one
      is running. */
  lemma {:induction false} RunsTerminate(states: seq<seq<Part>>, epochs: seq<nat>, events: seq<Event>,
                                         limit: nat, k: nat)
    requires Run(states, epochs, events, limit) && SlotsInv(states[0], epochs[0]) && k <= |events|
    ensures SlotsInv(states[k], epochs[k])
    ensures |AllOuts(states[k])| + Commits(events, k) == |AllOuts(states[0])|
    ensures AllOuts(states[k]) != [] ==> Active(states[k], limit) != []
  {
    hide EventStep, SlotsInv, AllOuts, Active;
    if k > 0 {
      RunsTerminate(states, epochs, events, limit, k - 1);
      EventKeeps(states[k - 1], epochs[k - 1], events[k - 1], states[k], epochs[k], limit);
    }
    SomeRuns(states[k], limit);
  }

  lemma SomeRuns(parts: seq<Part>, limit: nat)
    ensures AllOuts(parts) != [] ==> Active(parts, limit) != []
  {
    var ts := AllOuts(parts);
    if ts != [] && limit > 0 && Chosen(ts, limit) == [] {
      ChosenMaximal(ts, limit, ts[0]);
    }
  }

  /** Over every run a running migration keeps running until it is committed. */
  lemma {:induction false} RunsKeepRunning(states: seq<seq<Part>>, epochs: seq<nat>, events: seq<Event>, limit: nat,
                                           x: Task, k: nat)
    requires Run(states, epochs, events, limit) && SlotsInv(states[0], epochs[0]) && k <= |events|
    requires x in Active(states[0], limit)
    requires forall i :: 0 <= i < k ==> events[i] != Committed(Track(x, events, i))
    ensures Track(x, events, k) in Active(states[k], limit)
  {
    hide EventStep, SlotsInv, AllOuts, Active, After;
    if k > 0 {
      RunsTerminate(states, epochs, events, limit, k - 1);
      RunsKeepRunning(states, epochs, events, limit, x, k - 1);
      EventKeeps(states[k - 1], epochs[k - 1], events[k - 1], states[k], epochs[k], limit);
    }
  }

  // ----- the operation as the source runs it -----

  /** The counters the loop keeps for the migrations chosen so far. */
  ghost predicate Counts(running: seq<Task>, num: nat, out: map<nat, nat>) {
    && num == |running|
    && forall src: nat :: (src in out && out[src] >= 1) <==> exists u :: u in running && u.meta.src == src
  }

  method ShowOne(view0: seq<Part>, t: Task, limit: nat, num0: nat, out0: map<nat, nat>, ghost running: seq<Task>)
    returns (view: seq<Part>, num: nat, out: map<nat, nat>)
    requires t.meta.src < |view0| && t.meta.dst < |view0| && Counts(running, num0, out0)
    ensures view == if Waits(running, t, limit) then Absorb(view0, t) else PushTask(view0, t)
    ensures Counts(if Waits(running, t, limit) then running else running + [t], num, out)
  {
    var src, dst := t.meta.src, t.meta.dst;
    view, num, out := view0, num0, if src in out0 then out0 else out0[src := 0];
    if num >= limit || out[src] >= 1 {
      var stable := if view[src].stable.Some? then view[src].stable.value else [];
      view := view[src := view[src].(stable := Some(Compacted(stable + t.ranges)))];
    } else {
      view := view[src := view[src].(entries := view[src].entries + [Entry(t, true)])];
      view := view[dst := view[dst].(entries := view[dst].entries + [Entry(t, false)])];
      num, out := num + 1, out[src := out[src] + 1];
      assert t in running + [t];
    }
  }

  lemma SeenLocated(parts: seq<Part>, i: nat, j: nat)
    requires Located(AllOuts(parts), |parts|) && i < |parts| && j <= |parts[i].entries|
    ensures Located(AllOuts(parts[..i]) + Outs(parts[i].entries[..j]), |parts|)
  {
    var seen := AllOuts(parts[..i]) + Outs(parts[i].entries[..j]);
    forall t | t in seen ensures t in AllOuts(parts) {
      if t in AllOuts(parts[..i]) {
        AllHalvesMember(parts[..i], true, t);
      } else {
        HalvesMember(parts[i].entries[..j], true, t);
        HalvesMember(parts[i].entries, true, t);
      }
      AllHalvesMember(parts, true, t);
    }
  }

  /** One more entry of part `i` has been looked at. */
  lemma SeenNext(parts: seq<Part>, i: nat, j: nat)
    requires i < |parts| && j < |parts[i].entries|
    ensures var e := parts[i].entries[j];
            AllOuts(parts[..i]) + Outs(parts[i].entries[..j + 1]) ==
            AllOuts(parts[..i]) + Outs(parts[i].entries[..j]) + if e.migrating then [e.task] else []
  {
    var es := parts[i].entries;
    assert es[..j + 1] == es[..j] + [es[j]];
    HalvesAppend(es[..j], [es[j]], true);
  }

  method ShowPart(parts: seq<Part>, i: nat, limit: nat, view0: seq<Part>, num0: nat, out0: map<nat, nat>)
    returns (view: seq<Part>, num: nat, out: map<nat, nat>)
    requires i < |parts| && Located(AllOuts(parts), |parts|) && Located(AllOuts(parts[..i]), |parts|)
    requires view0 == Shown(Cleared(parts), AllOuts(parts[..i]), limit)
    requires Counts(Chosen(AllOuts(parts[..i]), limit), num0, out0)
    ensures Located(AllOuts(parts[..i + 1]), |parts|)
    ensures view == Shown(Cleared(parts), AllOuts(parts[..i + 1]), limit)
    ensures Counts(Chosen(AllOuts(parts[..i + 1]), limit), num, out)
  {
    view, num, out := view0, num0, out0;
    var es := parts[i].entries;
    ghost var before := AllOuts(parts[..i]);
    var j := 0;
    assert before + Outs(es[..0]) == before;
    while j < |es|
      invariant 0 <= j <= |es|
      invariant Located(before + Outs(es[..j]), |parts|)
      invariant view == Shown(Cleared(parts), before + Outs(es[..j]), limit)
      invariant Counts(Chosen(before + Outs(es[..j]), limit), num, out)
    {
      ghost var seen := before + Outs(es[..j]);
      SeenNext(parts, i, j);
      SeenLocated(parts, i, j + 1);
      if es[j].migrating {
        assert (seen + [es[j].task])[..|seen|] == seen;
        assert es[j].task in seen + [es[j].task];
        view, num, out := ShowOne(view, es[j].task, limit, num, out, Chosen(seen, limit));
      } else {
        assert seen + [] == seen;
      }
      j := j + 1;
    }
    assert es[..j] == es && parts[..i + 1][..i] == parts[..i];
  }

  method LimitMigration(parts: seq<Part>, limit: nat) returns (view: seq<Part>)
    requires Located(AllOuts(parts), |parts|)
    ensures view == View(parts, limit)
  {
    if limit == 0 {
      return parts;
    }
    view := Cleared(parts);
    var num: nat, out: map<nat, nat> := 0, map[];
    var i := 0;
    while i < |parts|
      invariant 0 <= i <= |parts| && Located(AllOuts(parts[..i]), |parts|)
      invariant view == Shown(Cleared(parts), AllOuts(parts[..i]), limit)
      invariant Counts(Chosen(AllOuts(parts[..i]), limit), num, out)
    {
      view, num, out := ShowPart(parts, i, limit, view, num, out);
      i := i + 1;
    }
    assert parts[..i] == parts;
  }
}

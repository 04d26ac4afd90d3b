/** Moving a failed proxy's masters to its peer and re-stamping its migrations
    (src/broker/update.rs, takeover_master). */
module Failover {
  import opened ClusterState
  import opened Commit
  import opened Nodes

  // ----- re-stamping -----

  function Restamp(t: Task, peers: set<nat>, epoch: nat): Task {
    if t.meta.src in peers || t.meta.dst in peers then t.(meta := t.meta.(epoch := epoch)) else t
  }

  function RestampEntries(es: seq<Entry>, peers: set<nat>, epoch: nat): (es': seq<Entry>)
    ensures |es'| == |es|
    ensures forall i :: 0 <= i < |es| ==> es'[i] == Entry(Restamp(es[i].task, peers, epoch), es[i].migrating)
  {
    seq(|es|, i requires 0 <= i < |es| => Entry(Restamp(es[i].task, peers, epoch), es[i].migrating))
  }

  function RestampParts(parts: seq<Part>, peers: set<nat>, epoch: nat): (parts': seq<Part>)
    ensures |parts'| == |parts|
    ensures forall i :: 0 <= i < |parts| ==>
              parts'[i] == parts[i].(entries := RestampEntries(parts[i].entries, peers, epoch))
  {
    seq(|parts|, i requires 0 <= i < |parts| =>
      parts[i].(entries := RestampEntries(parts[i].entries, peers, epoch)))
  }

  ghost function RestampTasks(ts: seq<Task>, peers: set<nat>, epoch: nat): seq<Task> {
    if ts == [] then [] else [Restamp(ts[0], peers, epoch)] + RestampTasks(ts[1..], peers, epoch)
  }

  lemma {:induction false} RestampHalves(es: seq<Entry>, peers: set<nat>, epoch: nat, m: bool)
    ensures Halves(RestampEntries(es, peers, epoch), m) == RestampTasks(Halves(es, m), peers, epoch)
  {
    if es != [] {
      RestampHalves(es[1..], peers, epoch, m);
      assert RestampEntries(es, peers, epoch)[1..] == RestampEntries(es[1..], peers, epoch);
      assert es[0].migrating == m ==> ([es[0].task] + Halves(es[1..], m))[1..] == Halves(es[1..], m);
    }
  }

  lemma {:induction false} RestampTasksAppend(a: seq<Task>, b: seq<Task>, peers: set<nat>, epoch: nat)
    ensures RestampTasks(a + b, peers, epoch) == RestampTasks(a, peers, epoch) + RestampTasks(b, peers, epoch)
  {
    if a == [] {
      assert a + b == b;
    } else {
      assert (a + b)[1..] == a[1..] + b;
      RestampTasksAppend(a[1..], b, peers, epoch);
    }
  }

  lemma {:induction false} RestampAllHalves(parts: seq<Part>, peers: set<nat>, epoch: nat, m: bool)
    ensures AllHalves(RestampParts(parts, peers, epoch), m) == RestampTasks(AllHalves(parts, m), peers, epoch)
  {
    if parts != [] {
      var n := |parts| - 1;
      RestampAllHalves(parts[..n], peers, epoch, m);
      assert RestampParts(parts, peers, epoch)[..n] == RestampParts(parts[..n], peers, epoch);
      RestampHalves(parts[n].entries, peers, epoch, m);
      RestampTasksAppend(AllHalves(parts[..n], m), Halves(parts[n].entries, m), peers, epoch);
    }
  }

  lemma {:induction false} RestampSums(ts: seq<Task>, peers: set<nat>, epoch: nat, s: nat)
    ensures TaskCover(RestampTasks(ts, peers, epoch), s) == TaskCover(ts, s)
    ensures TaskSize(RestampTasks(ts, peers, epoch)) == TaskSize(ts)
  {
    if ts != [] {
      RestampSums(ts[1..], peers, epoch, s);
      assert RestampTasks(ts, peers, epoch)[1..] == RestampTasks(ts[1..], peers, epoch);
    }
  }

  lemma RestampWithout(b: seq<Task>, k: nat, peers: set<nat>, epoch: nat, x: Task)
    requires k < |b|
    ensures Occurs(RestampTasks(b, peers, epoch), x) ==
            Occurs(RestampTasks(Without(b, k), peers, epoch), x) + if Restamp(b[k], peers, epoch) == x then 1 else 0
  {
    assert b == b[..k] + b[k..] && b[k..][1..] == b[k + 1..];
    RestampTasksAppend(b[..k], b[k..], peers, epoch);
    RestampTasksAppend(b[..k], b[k + 1..], peers, epoch);
    OccursAppend(RestampTasks(b[..k], peers, epoch), RestampTasks(b[k..], peers, epoch), x);
    OccursAppend(RestampTasks(b[..k], peers, epoch), RestampTasks(b[k + 1..], peers, epoch), x);
    assert RestampTasks(b[k..], peers, epoch)[1..] == RestampTasks(b[k + 1..], peers, epoch);
  }

  lemma {:induction false} RestampPermuted(a: seq<Task>, b: seq<Task>, peers: set<nat>, epoch: nat, x: Task)
    requires Permuted(a, b)
    ensures Occurs(RestampTasks(a, peers, epoch), x) == Occurs(RestampTasks(b, peers, epoch), x)
  {
    if a == [] {
      assert b != [] ==> Occurs(a, b[0]) == Occurs(b, b[0]);
    } else {
      var k := PermutedHead(a, b);
      RestampPermuted(a[1..], Without(b, k), peers, epoch, x);
      RestampWithout(b, k, peers, epoch, x);
      assert RestampTasks(a, peers, epoch)[1..] == RestampTasks(a[1..], peers, epoch);
    }
  }

  lemma RestampOwners(parts: seq<Part>, peers: set<nat>, epoch: nat)
    ensures SameOwners(parts, RestampParts(parts, peers, epoch))
  {
    forall i, s: nat | 0 <= i < |parts| ensures Own(parts[i], s) == Own(RestampParts(parts, peers, epoch)[i], s) {
      RestampHalves(parts[i].entries, peers, epoch, true);
      RestampSums(Outs(parts[i].entries), peers, epoch, s);
    }
  }

  lemma RestampGood(parts: seq<Part>, peers: set<nat>, epoch0: nat, epoch: nat)
    requires GoodParts(parts, epoch0) && epoch0 <= epoch
    ensures GoodParts(RestampParts(parts, peers, epoch), epoch)
  {
    var parts' := RestampParts(parts, peers, epoch);
    forall i | 0 <= i < |parts| ensures GoodPart(parts'[i], i, |parts|, epoch) {
      assert GoodPart(parts[i], i, |parts|, epoch0);
      forall e | e in parts'[i].entries
        ensures GoodTask(e.task, |parts|, epoch) && i == if e.migrating then e.task.meta.src else e.task.meta.dst
      {
        var k :| 0 <= k < |parts'[i].entries| && parts'[i].entries[k] == e;
        assert parts[i].entries[k] in parts[i].entries;
      }
    }
  }

  /** Re-stamping keeps the invariant: owners, balance and the pairing of halves. */
  lemma RestampKeepsInv(parts: seq<Part>, peers: set<nat>, epoch0: nat, epoch: nat)
    requires SlotsInv(parts, epoch0) && epoch0 <= epoch
    ensures SlotsInv(RestampParts(parts, peers, epoch), epoch)
    ensures SameOwners(parts, RestampParts(parts, peers, epoch))
    ensures forall target :: Balanced(parts, target) ==> Balanced(RestampParts(parts, peers, epoch), target)
  {
    var parts' := RestampParts(parts, peers, epoch);
    RestampGood(parts, peers, epoch0, epoch);
    RestampOwners(parts, peers, epoch);
    SameOwnersPartition(parts, parts');
    RestampAllHalves(parts, peers, epoch, true);
    RestampAllHalves(parts, peers, epoch, false);
    forall x ensures Occurs(AllOuts(parts'), x) == Occurs(AllIns(parts'), x) {
      RestampPermuted(AllOuts(parts), AllIns(parts), peers, epoch, x);
    }
    forall i | 0 <= i < |parts| ensures FinalSize(parts'[i]) == FinalSize(parts[i]) {
      RestampHalves(parts[i].entries, peers, epoch, false);
      RestampSums(Ins(parts[i].entries), peers, epoch, 0);
    }
    var target :| Balanced(parts, target);
    assert Balanced(parts', target);
  }

  // ----- stale commits -----

  lemma {:induction false} RestampMember(ts: seq<Task>, peers: set<nat>, epoch: nat, u: Task)
    requires u in RestampTasks(ts, peers, epoch)
    ensures exists t :: t in ts && u == Restamp(t, peers, epoch)
  {
    if u != Restamp(ts[0], peers, epoch) {
      RestampMember(ts[1..], peers, epoch, u);
      var t :| t in ts[1..] && u == Restamp(t, peers, epoch);
      assert t in ts;
    } else {
      assert ts[0] in ts;
    }
  }

  /** After a takeover no stored migration answers to a re-stamped task's old
      epoch, so a commit sent before the takeover finds nothing. */
  lemma StaleCommitFindsNothing(parts: seq<Part>, peers: set<nat>, epoch0: nat, epoch: nat, t: Task)
    requires SlotsInv(parts, epoch0) && epoch0 < epoch
    requires t in AllOuts(parts) && (t.meta.src in peers || t.meta.dst in peers)
    ensures forall u :: u in AllOuts(RestampParts(parts, peers, epoch)) ==>
              !(u.ranges == t.ranges && u.meta.epoch == t.meta.epoch)
  {
    RestampAllHalves(parts, peers, epoch, true);
    StoredTask(parts, epoch0, t);
    forall u | u in AllOuts(RestampParts(parts, peers, epoch)) && u.ranges == t.ranges
      ensures u.meta.epoch != t.meta.epoch
    {
      RestampMember(AllOuts(parts), peers, epoch, u);
      var v :| v in AllOuts(parts) && u == Restamp(v, peers, epoch);
      StoredOnce(parts, t, v);
    }
  }

  /** A task that has been committed is not found again. */
  lemma CommittedIsGone(parts: seq<Part>, epoch: nat, t: Task)
    requires SlotsInv(parts, epoch) && t in AllOuts(parts) && StoredAt(parts, t, epoch)
    ensures forall u :: u in AllOuts(CommitTask(parts, t)) ==> u.ranges != t.ranges
  {
    forall u | u in AllOuts(CommitTask(parts, t)) ensures u.ranges != t.ranges {
      OccursMember(AllOuts(CommitTask(parts, t)), u);
      OccursMember(AllOuts(parts), u);
      CommitHalves(parts, epoch, t, true, u);
      if u.ranges == t.ranges {
        StoredOnce(parts, t, u);
      }
    }
  }

  // ----- the operation as the source runs it -----

  predicate HasProxy(chunk: Chunk, proxy: string) {
    chunk.first.proxy == proxy || chunk.second.proxy == proxy
  }

  /** The role that takes the masters off the half with this proxy. */
  function PeerRole(chunk: Chunk, proxy: string): Role {
    if chunk.first.proxy == proxy then SecondChunkMaster else FirstChunkMaster
  }

  /** That role, and no other, takes them off. */
  lemma PeerRoleIsOff(chunk: Chunk, proxy: string)
    requires HasProxy(chunk, proxy) && chunk.first.proxy != chunk.second.proxy
    ensures OffProxy(chunk.(role := PeerRole(chunk, proxy)), proxy)
    ensures OffProxy(chunk, proxy) <==> chunk.role == PeerRole(chunk, proxy)
  {
    assert ProxyAddress(chunk, 0 / 2) == ProxyAddress(chunk, 1 / 2) == chunk.first.proxy;
    assert ProxyAddress(chunk, 2 / 2) == ProxyAddress(chunk, 3 / 2) == chunk.second.proxy;
    assert chunk.role == Normal ==> IsMaster(chunk.role, 0) && IsMaster(chunk.role, 2);
    assert chunk.role == FirstChunkMaster ==> IsMaster(chunk.role, 0);
    assert chunk.role == SecondChunkMaster ==> IsMaster(chunk.role, 2);
  }

  /** Both ends of every migration stored in a part. */
  function Ends(es: seq<Entry>): set<nat> {
    (set e <- es :: e.task.meta.src) + (set e <- es :: e.task.meta.dst)
  }

  lemma InEnds(es: seq<Entry>, e: Entry)
    requires e in es
    ensures e.task.meta.src in Ends(es) && e.task.meta.dst in Ends(es)
  {
  }

  /** The first chunk with this proxy. */
  method LocateProxy(chunks: seq<Chunk>, proxy: string) returns (c: nat)
    ensures c <= |chunks| && (c < |chunks| ==> HasProxy(chunks[c], proxy))
    ensures forall k :: 0 <= k < c ==> !HasProxy(chunks[k], proxy)
  {
    c := 0;
    while c < |chunks|
      invariant c <= |chunks|
      invariant forall k :: 0 <= k < c ==> !HasProxy(chunks[k], proxy)
    {
      if HasProxy(chunks[c], proxy) {
        return;
      }
      c := c + 1;
    }
  }

  function Stamp(e: Entry, epoch: nat): Entry {
    Entry(e.task.(meta := e.task.meta.(epoch := epoch)), e.migrating)
  }

  lemma EndsSnoc(es: seq<Entry>, e: Entry)
    ensures Ends(es + [e]) == Ends(es) + {e.task.meta.src, e.task.meta.dst}
  {
  }

  /** Every entry of a part touches an end of that part's migrations. */
  lemma AllStamped(es0: seq<Entry>, es: seq<Entry>, epoch: nat)
    requires |es| == |es0| && forall j :: 0 <= j < |es0| ==> es[j] == Stamp(es0[j], epoch)
    ensures es == RestampEntries(es0, Ends(es0), epoch)
  {
    forall j | 0 <= j < |es0| ensures es[j] == RestampEntries(es0, Ends(es0), epoch)[j] {
      InEnds(es0, es0[j]);
    }
  }

  /** Stamps every entry of one part and collects both ends of each. */
  method StampPart(es0: seq<Entry>, epoch: nat) returns (es: seq<Entry>, peers: set<nat>)
    ensures es == RestampEntries(es0, Ends(es0), epoch) && peers == Ends(es0)
  {
    es, peers := [], {};
    var k := 0;
    while k < |es0|
      invariant 0 <= k <= |es0| && |es| == k && peers == Ends(es0[..k])
      invariant forall j :: 0 <= j < k ==> es[j] == Stamp(es0[j], epoch)
    {
      hide Ends, Stamp;
      assert es0[..k + 1] == es0[..k] + [es0[k]];
      EndsSnoc(es0[..k], es0[k]);
      es := es + [Stamp(es0[k], epoch)];
      peers := peers + {es0[k].task.meta.src, es0[k].task.meta.dst};
      k := k + 1;
    }
    hide Ends, Stamp, RestampEntries;
    assert es0[..k] == es0;
    AllStamped(es0, es, epoch);
  }

  method StampPeers(parts0: seq<Part>, peers: set<nat>, epoch: nat) returns (parts: seq<Part>)
    ensures parts == RestampParts(parts0, peers, epoch)
  {
    parts := parts0;
    var i := 0;
    while i < |parts|
      invariant 0 <= i <= |parts| == |parts0|
      invariant forall k :: 0 <= k < i ==>
                  parts[k] == parts0[k].(entries := RestampEntries(parts0[k].entries, peers, epoch))
      invariant forall k :: i <= k < |parts| ==> parts[k] == parts0[k]
    {
      var es := parts[i].entries;
      var j := 0;
      while j < |es|
        invariant 0 <= j <= |es| == |parts0[i].entries|
        invariant forall k :: 0 <= k < j ==>
                    es[k] == Entry(Restamp(parts0[i].entries[k].task, peers, epoch), parts0[i].entries[k].migrating)
        invariant forall k :: j <= k < |es| ==> es[k] == parts0[i].entries[k]
      {
        var meta := es[j].task.meta;
        if meta.src in peers || meta.dst in peers {
          es := es[j := Entry(es[j].task.(meta := meta.(epoch := epoch)), es[j].migrating)];
        }
        j := j + 1;
      }
      parts := parts[i := parts[i].(entries := es)];
      i := i + 1;
    }
  }

  /** What a takeover leaves: the peer holds both masters of the chunk, and every
      migration touching an end of the failed part's migrations has the new epoch. */
  ghost predicate TakenOver(chunks0: seq<Chunk>, parts0: seq<Part>, c: nat, failed: string, epoch: nat,
                            chunks: seq<Chunk>, parts: seq<Part>)
    requires c < |chunks0| && |parts0| == 2 * |chunks0|
  {
    var role := PeerRole(chunks0[c], failed);
    var failedPart := if role == SecondChunkMaster then 2 * c else 2 * c + 1;
    && chunks == chunks0[c := chunks0[c].(role := role)]
    && parts == RestampParts(parts0, Ends(parts0[failedPart].entries), epoch)
  }

  /** Stamping the failed part first and its peers afterwards is one stamping. */
  lemma StampedTwice(parts: seq<Part>, i: nat, es: seq<Entry>, epoch: nat)
    requires i < |parts|
    requires es == RestampEntries(parts[i].entries, Ends(parts[i].entries), epoch)
    ensures var peers := Ends(parts[i].entries);
            RestampParts(parts[i := parts[i].(entries := es)], peers, epoch) == RestampParts(parts, peers, epoch)
  {
    var peers := Ends(parts[i].entries);
    assert RestampEntries(es, peers, epoch) == es;
  }

  method TakeoverMaster(chunks0: seq<Chunk>, parts0: seq<Part>, failed: string, epoch: nat)
    returns (chunks: seq<Chunk>, parts: seq<Part>, stamped: bool, ghost c: nat)
    requires |parts0| == 2 * |chunks0|
    ensures c <= |chunks0| && (c < |chunks0| ==> HasProxy(chunks0[c], failed))
    ensures forall k :: 0 <= k < c ==> !HasProxy(chunks0[k], failed)
    ensures stamped == (c < |chunks0| ==> chunks0[c].role != PeerRole(chunks0[c], failed))
    ensures c < |chunks0| && stamped ==> TakenOver(chunks0, parts0, c, failed, epoch, chunks, parts)
    ensures c == |chunks0| || !stamped ==> chunks == chunks0 && parts == parts0
    ensures c < |chunks0| && chunks0[c].first.proxy != chunks0[c].second.proxy ==>
              |chunks| == |chunks0| && OffProxy(chunks[c], failed) && (stamped <==> !OffProxy(chunks0[c], failed))
  {
    chunks, parts, stamped := chunks0, parts0, true;
    var at := LocateProxy(chunks, failed);
    c := at;
    var peers: set<nat> := {};
    if at < |chunks| {
      var role := PeerRole(chunks[at], failed);
      if chunks0[c].first.proxy != chunks0[c].second.proxy {
        PeerRoleIsOff(chunks0[c], failed);
      }
      hide OffProxy;
      if chunks[at].role == role {
        stamped := false;
        return;
      }
      chunks := chunks[at := chunks[at].(role := role)];
      var i := if role == SecondChunkMaster then 2 * at else 2 * at + 1;
      var es: seq<Entry>;
      es, peers := StampPart(parts[i].entries, epoch);
      StampedTwice(parts, i, es, epoch);
      parts := parts[i := parts[i].(entries := es)];
    }
    parts := StampPeers(parts, peers, epoch);
    if c == |chunks0| {
      NothingStamped(parts0, epoch);
    }
  }

  lemma NothingStamped(parts: seq<Part>, epoch: nat)
    ensures RestampParts(parts, {}, epoch) == parts
  {
    forall i | 0 <= i < |parts| ensures RestampParts(parts, {}, epoch)[i] == parts[i] {
      assert RestampEntries(parts[i].entries, {}, epoch) == parts[i].entries;
    }
  }

  /** An entry of a stamped part carries the new epoch, and so does its other half. */
  lemma StampedEntry(parts0: seq<Part>, i: nat, epoch: nat, parts: seq<Part>, e: Entry)
    requires i < |parts0| && parts == RestampParts(parts0, Ends(parts0[i].entries), epoch)
    requires e in parts[i].entries && SlotsInv(parts, epoch)
    ensures e.task.meta.epoch == epoch && StoredAt(parts, e.task, epoch)
  {
    hide SlotsInv;
    var k :| 0 <= k < |parts[i].entries| && parts[i].entries[k] == e;
    InEnds(parts0[i].entries, parts0[i].entries[k]);
    StoredHalf(parts, epoch, i, e);
  }

  lemma StoredHalf(parts: seq<Part>, epoch: nat, i: nat, e: Entry)
    requires SlotsInv(parts, epoch) && i < |parts| && e in parts[i].entries
    ensures StoredAt(parts, e.task, epoch)
  {
    HalvesMember(parts[i].entries, e.migrating, e.task);
    AllHalvesMember(parts, e.migrating, e.task);
    OccursMember(AllOuts(parts), e.task);
    OccursMember(AllIns(parts), e.task);
    assert Occurs(AllOuts(parts), e.task) == Occurs(AllIns(parts), e.task);
    StoredTask(parts, epoch, e.task);
  }

  /** A takeover keeps the invariant, keeps every owner, and leaves all migrations
      of the failed part with the new epoch on both halves. */
  lemma TakeoverKeepsInv(chunks0: seq<Chunk>, parts0: seq<Part>, c: nat, failed: string, epoch0: nat, epoch: nat,
                         chunks: seq<Chunk>, parts: seq<Part>)
    requires c < |chunks0| && |parts0| == 2 * |chunks0| && HasProxy(chunks0[c], failed)
    requires SlotsInv(parts0, epoch0) && epoch0 < epoch
    requires TakenOver(chunks0, parts0, c, failed, epoch, chunks, parts)
    ensures SlotsInv(parts, epoch) && SameOwners(parts0, parts)
    ensures var failedPart := if chunks0[c].first.proxy == failed then 2 * c else 2 * c + 1;
            forall e :: e in parts[failedPart].entries ==> e.task.meta.epoch == epoch && StoredAt(parts, e.task, epoch)
  {
    var i := if chunks0[c].first.proxy == failed then 2 * c else 2 * c + 1;
    hide SlotsInv, SameOwners, StoredAt, Ends;
    RestampKeepsInv(parts0, Ends(parts0[i].entries), epoch0, epoch);
    forall e | e in parts[i].entries ensures e.task.meta.epoch == epoch && StoredAt(parts, e.task, epoch) {
      StampedEntry(parts0, i, epoch, parts, e);
    }
  }
}

/** The slot table a proxy advertises (src/broker/query.rs, get_proxy_by_address;
    src/coordinator/sync.rs, generate_proxy_meta_cmd_args; src/proxy/cluster.rs,
    gen_cluster_slots). */
module SlotTable {
  import opened Ranges
  import opened ClusterState
  import opened Nodes

  datatype MigrationState = PreCheck | PreBlocking | PreSwitch | Scanning | FinalSwitch | SwitchCommitted

  type States = map<RangeList, MigrationState>

  predicate BeforeSwitch(ranges: RangeList, states: States) {
    ranges in states && states[ranges] == PreCheck
  }

  /** Migrating slots count only before the switch, importing slots only after. */
  predicate Ignored(r: SlotRange, states: States) {
    match r.tag
    case Migrating(_) => !BeforeSwitch(r.ranges, states)
    case Importing(_) => BeforeSwitch(r.ranges, states)
    case Stable => false
  }

  /** How often a list of slot ranges advertises slot `s`. */
  ghost function Advertised(slots: seq<SlotRange>, states: States, s: nat): nat {
    if slots == [] then 0
    else (if Ignored(slots[0], states) then 0 else Cover(slots[0].ranges, s)) + Advertised(slots[1..], states, s)
  }

  lemma {:induction false} AdvertisedAppend(a: seq<SlotRange>, b: seq<SlotRange>, states: States, s: nat)
    ensures Advertised(a + b, states, s) == Advertised(a, states, s) + Advertised(b, states, s)
  {
    if a == [] {
      assert a + b == b;
    } else {
      assert (a + b)[1..] == a[1..] + b;
      AdvertisedAppend(a[1..], b, states, s);
    }
  }

  // ----- every slot is advertised by exactly one part -----

  /** The slots of those tasks whose local state is (or is not) before the switch. */
  ghost function TaskAdv(ts: seq<Task>, states: States, before: bool, s: nat): nat {
    if ts == [] then 0
    else (if BeforeSwitch(ts[0].ranges, states) == before then Cover(ts[0].ranges, s) else 0) +
         TaskAdv(ts[1..], states, before, s)
  }

  lemma {:induction false} TaskAdvAppend(a: seq<Task>, b: seq<Task>, states: States, before: bool, s: nat)
    ensures TaskAdv(a + b, states, before, s) == TaskAdv(a, states, before, s) + TaskAdv(b, states, before, s)
  {
    if a == [] {
      assert a + b == b;
    } else {
      assert (a + b)[1..] == a[1..] + b;
      TaskAdvAppend(a[1..], b, states, before, s);
    }
  }

  lemma {:induction false} TaskAdvBoth(ts: seq<Task>, states: States, s: nat)
    ensures TaskAdv(ts, states, true, s) + TaskAdv(ts, states, false, s) == TaskCover(ts, s)
  {
    if ts != [] {
      TaskAdvBoth(ts[1..], states, s);
    }
  }

  lemma {:induction false} TaskAdvPermuted(a: seq<Task>, b: seq<Task>, states: States, before: bool, s: nat)
    requires Permuted(a, b)
    ensures TaskAdv(a, states, before, s) == TaskAdv(b, states, before, s)
  {
    if a == [] {
      assert b != [] ==> Occurs(a, b[0]) == Occurs(b, b[0]);
    } else {
      var k := PermutedHead(a, b);
      TaskAdvPermuted(a[1..], Without(b, k), states, before, s);
      assert b == b[..k] + b[k..] && b[k..][1..] == b[k + 1..];
      TaskAdvAppend(b[..k], b[k..], states, before, s);
      TaskAdvAppend(b[..k], b[k + 1..], states, before, s);
    }
  }

  ghost function PartAdv(p: Part, states: States, s: nat): nat {
    Cover(Stored(p.stable), s) +
    TaskAdv(Outs(p.entries), states, true, s) + TaskAdv(Ins(p.entries), states, false, s)
  }

  /** What the first `n` parts advertise. */
  ghost function PartsAdv(parts: seq<Part>, n: nat, states: States, s: nat): nat
    requires n <= |parts|
  {
    if n == 0 then 0 else PartsAdv(parts, n - 1, states, s) + PartAdv(parts[n - 1], states, s)
  }

  lemma {:induction false} PartsAdvSplit(parts: seq<Part>, n: nat, states: States, s: nat)
    requires n <= |parts|
    ensures PartsAdv(parts, n, states, s) == StableCover(parts[..n], s) +
            TaskAdv(AllOuts(parts[..n]), states, true, s) + TaskAdv(AllIns(parts[..n]), states, false, s)
  {
    if n > 0 {
      var k := n - 1;
      PartsAdvSplit(parts, k, states, s);
      assert parts[..n][..k] == parts[..k];
      TaskAdvAppend(AllOuts(parts[..k]), Outs(parts[k].entries), states, true, s);
      TaskAdvAppend(AllIns(parts[..k]), Ins(parts[k].entries), states, false, s);
    }
  }

  /** Whatever the local migration states say, the two halves of a migration never
      both advertise its slots and never both ignore them. */
  lemma PartsAdvertiseOnce(parts: seq<Part>, states: States, s: nat)
    requires Partition(parts) && Twins(parts)
    ensures PartsAdv(parts, |parts|, states, s) == if s < SLOT_NUM then 1 else 0
  {
    assert parts[..|parts|] == parts;
    PartsAdvSplit(parts, |parts|, states, s);
    TaskAdvPermuted(AllOuts(parts), AllIns(parts), states, false, s);
    TaskAdvBoth(AllOuts(parts), states, s);
  }

  // ----- which parts advertise anything -----

  /** Something of the part is advertised: stable slots, or a half of a migration
      whose local state does not hide it. */
  predicate Shows(p: Part, states: States) {
    p.stable.Some? || exists e :: e in p.entries && e.migrating == BeforeSwitch(e.task.ranges, states)
  }

  lemma {:induction false} EntriesAdvNone(es: seq<Entry>, states: States, s: nat)
    requires forall e :: e in es ==> e.migrating != BeforeSwitch(e.task.ranges, states)
    ensures TaskAdv(Outs(es), states, true, s) + TaskAdv(Ins(es), states, false, s) == 0
  {
    if es != [] {
      EntriesAdvNone(es[1..], states, s);
      assert es[0].migrating ==> Outs(es)[1..] == Outs(es[1..]);
      assert !es[0].migrating ==> Ins(es)[1..] == Ins(es[1..]);
    }
  }

  lemma {:induction false} EntriesAdvSome(es: seq<Entry>, k: nat, states: States, s: nat)
    requires k < |es| && es[k].migrating == BeforeSwitch(es[k].task.ranges, states)
    requires Cover(es[k].task.ranges, s) > 0
    ensures TaskAdv(Outs(es), states, true, s) + TaskAdv(Ins(es), states, false, s) > 0
  {
    assert es[0].migrating ==> Outs(es)[1..] == Outs(es[1..]);
    assert !es[0].migrating ==> Ins(es)[1..] == Ins(es[1..]);
    if k > 0 {
      EntriesAdvSome(es[1..], k - 1, states, s);
    }
  }

  lemma FirstCovered(rl: RangeList)
    requires rl != [] && Canonical(rl)
    ensures Cover(rl, rl[0].start) > 0
  {
  }

  lemma ShowsSomething(p: Part, states: States, i: nat, n: nat, epoch: nat)
    requires GoodPart(p, i, n, epoch) && Shows(p, states)
    ensures exists s: nat :: PartAdv(p, states, s) > 0
  {
    if p.stable.Some? {
      FirstCovered(p.stable.value);
      assert PartAdv(p, states, p.stable.value[0].start) > 0;
    } else {
      var e :| e in p.entries && e.migrating == BeforeSwitch(e.task.ranges, states);
      var k :| 0 <= k < |p.entries| && p.entries[k] == e;
      FirstCovered(e.task.ranges);
      EntriesAdvSome(p.entries, k, states, e.task.ranges[0].start);
      assert PartAdv(p, states, e.task.ranges[0].start) > 0;
    }
  }

  lemma ShowsNothing(p: Part, states: States, s: nat)
    requires !Shows(p, states)
    ensures PartAdv(p, states, s) == 0
  {
    EntriesAdvNone(p.entries, states, s);
  }

  /** A migration's slots are advertised by its source part as long as its state is
      PreCheck, and by its destination part in every other state and in none. */
  lemma SwitchDecides(parts: seq<Part>, epoch: nat, t: Task, states: States, s: nat)
    requires GoodParts(parts, epoch) && Twins(parts) && t in AllOuts(parts) && Cover(t.ranges, s) > 0
    ensures t.meta.src < |parts| && t.meta.dst < |parts|
    ensures t.ranges in states && states[t.ranges] == PreCheck ==> PartAdv(parts[t.meta.src], states, s) > 0
    ensures t.ranges in states && states[t.ranges] != PreCheck ==> PartAdv(parts[t.meta.dst], states, s) > 0
    ensures t.ranges !in states ==> PartAdv(parts[t.meta.dst], states, s) > 0
  {
    BothEntries(parts, epoch, t);
    var before := t.ranges in states && states[t.ranges] == PreCheck;
    var p := if before then t.meta.src else t.meta.dst;
    var k :| 0 <= k < |parts[p].entries| && parts[p].entries[k] == Entry(t, before);
    hide Cover, TaskAdv, GoodParts, Twins, AllOuts;
    EntriesAdvSome(parts[p].entries, k, states, s);
  }

  /** If the first `n` parts advertise slot `s` once, one of them does and the others do not. */
  lemma {:induction false} OnePart(parts: seq<Part>, n: nat, states: States, s: nat) returns (p: nat)
    requires n <= |parts| && PartsAdv(parts, n, states, s) == 1
    ensures p < n && PartAdv(parts[p], states, s) == 1
    ensures forall q :: 0 <= q < n && q != p ==> PartAdv(parts[q], states, s) == 0
  {
    hide PartAdv;
    if PartAdv(parts[n - 1], states, s) == 1 {
      p := n - 1;
      NoParts(parts, n - 1, states, s);
    } else {
      p := OnePart(parts, n - 1, states, s);
    }
  }

  lemma {:induction false} NoParts(parts: seq<Part>, n: nat, states: States, s: nat)
    requires n <= |parts| && PartsAdv(parts, n, states, s) == 0
    ensures forall q :: 0 <= q < n ==> PartAdv(parts[q], states, s) == 0
  {
    hide PartAdv;
    if n > 0 {
      NoParts(parts, n - 1, states, s);
    }
  }

  // ----- from parts to nodes -----

  lemma {:induction false} EntriesAdvertised(chunks: seq<Chunk>, es: seq<Entry>, slots: seq<SlotRange>,
                                             states: States, s: nat)
    requires |slots| == |es|
    requires forall k :: 0 <= k < |es| ==>
               es[k].task.meta.src < 2 * |chunks| && es[k].task.meta.dst < 2 * |chunks| &&
               slots[k] == ToSlotRange(chunks, es[k])
    ensures Advertised(slots, states, s) == TaskAdv(Outs(es), states, true, s) + TaskAdv(Ins(es), states, false, s)
  {
    if es != [] {
      EntriesAdvertised(chunks, es[1..], slots[1..], states, s);
      assert slots[0] == ToSlotRange(chunks, es[0]);
      assert es[0].migrating ==> Outs(es)[1..] == Outs(es[1..]);
      assert !es[0].migrating ==> Ins(es)[1..] == Ins(es[1..]);
    }
  }

  lemma PartAdvertised(chunks: seq<Chunk>, parts: seq<Part>, p: nat, states: States, s: nat)
    requires |parts| == 2 * |chunks| && Sited(parts) && p < |parts|
    ensures Advertised(PartSlots(chunks, parts, p), states, s) == PartAdv(parts[p], states, s)
  {
    var es := parts[p].entries;
    var stable := if parts[p].stable.Some? then [SlotRange(parts[p].stable.value, Stable)] else [];
    var slots := PartSlots(chunks, parts, p)[|stable|..];
    assert PartSlots(chunks, parts, p) == stable + slots;
    AdvertisedAppend(stable, slots, states, s);
    forall k | 0 <= k < |es|
      ensures es[k].task.meta.src < 2 * |chunks| && es[k].task.meta.dst < 2 * |chunks| &&
              slots[k] == ToSlotRange(chunks, es[k])
    {
      assert es[k] in es;
    }
    EntriesAdvertised(chunks, es, slots, states, s);
    assert stable != [] ==> stable[1..] == [];
  }

  /** What the first `n` nodes advertise. */
  ghost function NodesAdv(nodes: seq<Node>, n: nat, states: States, s: nat): nat
    requires n <= |nodes|
  {
    if n == 0 then 0 else NodesAdv(nodes, n - 1, states, s) + Advertised(nodes[n - 1].slots, states, s)
  }

  /** The slots on the nodes of a chunk, by role. */
  lemma SlotsByRole(chunks: seq<Chunk>, parts: seq<Part>, c: nat)
    requires |parts| == 2 * |chunks| && Sited(parts) && c < |chunks|
    ensures var a, b := PartSlots(chunks, parts, 2 * c), PartSlots(chunks, parts, 2 * c + 1);
            var role := chunks[c].role;
            && NodeSlots(chunks, parts, c, 0) == (if role == SecondChunkMaster then [] else a)
            && NodeSlots(chunks, parts, c, 1) == (if role == FirstChunkMaster then b else [])
            && NodeSlots(chunks, parts, c, 2) == (if role == FirstChunkMaster then [] else b)
            && NodeSlots(chunks, parts, c, 3) == (if role == SecondChunkMaster then a else [])
  {
    hide PartSlots;
    var a, b := PartSlots(chunks, parts, 2 * c), PartSlots(chunks, parts, 2 * c + 1);
    assert a + [] == a && [] + b == b;
  }

  /** The four nodes of a chunk advertise what its two parts do. */
  lemma ChunkAdvertised(chunks: seq<Chunk>, parts: seq<Part>, c: nat, states: States, s: nat)
    requires |parts| == 2 * |chunks| && Sited(parts) && c < |chunks|
    ensures Advertised(NodeSlots(chunks, parts, c, 0), states, s) +
            Advertised(NodeSlots(chunks, parts, c, 1), states, s) +
            Advertised(NodeSlots(chunks, parts, c, 2), states, s) +
            Advertised(NodeSlots(chunks, parts, c, 3), states, s) ==
            PartAdv(parts[2 * c], states, s) + PartAdv(parts[2 * c + 1], states, s)
  {
    assert Advertised([], states, s) == 0;
    hide *;
    PartAdvertised(chunks, parts, 2 * c, states, s);
    PartAdvertised(chunks, parts, 2 * c + 1, states, s);
    SlotsByRole(chunks, parts, c);
  }

  lemma SlotsAt(chunks: seq<Chunk>, parts: seq<Part>, nodes: seq<Node>, c: nat, i: nat)
    requires |parts| == 2 * |chunks| && Sited(parts) && c < |chunks| && i < 4
    requires nodes == AllNodes(chunks, parts)
    ensures nodes[4 * c + i].slots == NodeSlots(chunks, parts, c, i)
  {
    hide *;
    AllNodesAt(chunks, parts, 4 * c + i);
    NodeAt(chunks, parts, c, i);
  }

  lemma FourNodes(nodes: seq<Node>, j: nat, states: States, s: nat)
    requires j + 4 <= |nodes|
    ensures NodesAdv(nodes, j + 4, states, s) == NodesAdv(nodes, j, states, s) +
            Advertised(nodes[j].slots, states, s) + Advertised(nodes[j + 1].slots, states, s) +
            Advertised(nodes[j + 2].slots, states, s) + Advertised(nodes[j + 3].slots, states, s)
  {
    hide Advertised;
    assert NodesAdv(nodes, j + 2, states, s) == NodesAdv(nodes, j, states, s) +
           Advertised(nodes[j].slots, states, s) + Advertised(nodes[j + 1].slots, states, s);
  }

  lemma ChunkOnNodes(chunks: seq<Chunk>, parts: seq<Part>, nodes: seq<Node>, c: nat, states: States, s: nat)
    requires |parts| == 2 * |chunks| && Sited(parts) && c < |chunks|
    requires nodes == AllNodes(chunks, parts)
    ensures NodesAdv(nodes, 4 * c + 4, states, s) ==
            NodesAdv(nodes, 4 * c, states, s) + PartAdv(parts[2 * c], states, s) + PartAdv(parts[2 * c + 1], states, s)
  {
    hide *;
    FourNodes(nodes, 4 * c, states, s);
    SlotsAt(chunks, parts, nodes, c, 0);
    SlotsAt(chunks, parts, nodes, c, 1);
    SlotsAt(chunks, parts, nodes, c, 2);
    SlotsAt(chunks, parts, nodes, c, 3);
    ChunkAdvertised(chunks, parts, c, states, s);
  }

  lemma TwoParts(parts: seq<Part>, c: nat, states: States, s: nat)
    requires 2 * c + 2 <= |parts|
    ensures PartsAdv(parts, 2 * (c + 1), states, s) ==
            PartsAdv(parts, 2 * c, states, s) + PartAdv(parts[2 * c], states, s) + PartAdv(parts[2 * c + 1], states, s)
  {
    hide PartAdv;
  }

  lemma NoNodes(parts: seq<Part>, nodes: seq<Node>, states: States, s: nat)
    ensures NodesAdv(nodes, 0, states, s) == 0 == PartsAdv(parts, 0, states, s)
  {
  }

  lemma {:induction false} NodesAdvertised(chunks: seq<Chunk>, parts: seq<Part>, nodes: seq<Node>, c: nat,
                                           states: States, s: nat)
    requires |parts| == 2 * |chunks| && Sited(parts) && c <= |chunks|
    requires nodes == AllNodes(chunks, parts)
    ensures NodesAdv(nodes, 4 * c, states, s) == PartsAdv(parts, 2 * c, states, s)
  {
    hide *;
    if c == 0 {
      NoNodes(parts, nodes, states, s);
    } else {
      NodesAdvertised(chunks, parts, nodes, c - 1, states, s);
      ChunkOnNodes(chunks, parts, nodes, c - 1, states, s);
      TwoParts(parts, c - 1, states, s);
    }
  }
}

/** The nodes of a cluster and the slots placed on them
    (src/broker/query.rs, cluster_store_to_cluster; src/broker/store.rs, to_slot_range). */
module Nodes {
  import opened Ranges
  import opened ClusterState
  import Commit

  /** The proxies and nodes a migration runs between. */
  datatype Addresses = Addresses(epoch: nat, srcProxy: string, srcNode: string, dstProxy: string, dstNode: string)

  datatype Tag = Stable | Migrating(at: Addresses) | Importing(at: Addresses)

  datatype SlotRange = SlotRange(ranges: RangeList, tag: Tag)

  datatype Node = Node(address: string, proxy: string, slots: seq<SlotRange>, master: bool)

  /** The halves of all chunks, numbered across chunks. */
  function HalfOf(chunks: seq<Chunk>, h: nat): Half
    requires h < 2 * |chunks|
  {
    if h % 2 == 0 then chunks[h / 2].first else chunks[h / 2].second
  }

  function NodeAddress(chunk: Chunk, i: nat): string
    requires i < 4
  {
    if i == 0 then chunk.first.node0
    else if i == 1 then chunk.first.node1
    else if i == 2 then chunk.second.node0
    else chunk.second.node1
  }

  function ProxyAddress(chunk: Chunk, k: nat): string
    requires k < 2
  {
    if k == 0 then chunk.first.proxy else chunk.second.proxy
  }

  // ----- where a migration's addresses come from -----

  function ProxyIndex(part: nat, role: Role): (k: nat)
    requires part < 2
    ensures k < 2
  {
    if part == 0 && role == SecondChunkMaster then 1
    else if part == 1 && role == FirstChunkMaster then 0
    else part
  }

  function NodeIndex(part: nat, role: Role): (i: nat)
    requires part < 2
    ensures i < 4
  {
    if part == 0 && role == SecondChunkMaster then 3
    else if part == 1 && role == FirstChunkMaster then 1
    else 2 * part
  }

  /** The proxy of the master that holds part `p`. */
  function PartProxy(chunks: seq<Chunk>, p: nat): string
    requires p < 2 * |chunks|
  {
    ProxyAddress(chunks[p / 2], ProxyIndex(p % 2, chunks[p / 2].role))
  }

  function AddressesOf(chunks: seq<Chunk>, meta: Meta): Addresses
    requires meta.src < 2 * |chunks| && meta.dst < 2 * |chunks|
  {
    var src, dst := chunks[meta.src / 2], chunks[meta.dst / 2];
    Addresses(
      meta.epoch,
      PartProxy(chunks, meta.src),
      NodeAddress(src, NodeIndex(meta.src % 2, src.role)),
      PartProxy(chunks, meta.dst),
      NodeAddress(dst, NodeIndex(meta.dst % 2, dst.role)))
  }

  /** Every stored migration names parts of this cluster. */
  predicate Sited(parts: seq<Part>) {
    forall i, e :: 0 <= i < |parts| && e in parts[i].entries ==>
      e.task.meta.src < |parts| && e.task.meta.dst < |parts|
  }

  function ToSlotRange(chunks: seq<Chunk>, e: Entry): SlotRange
    requires e.task.meta.src < 2 * |chunks| && e.task.meta.dst < 2 * |chunks|
  {
    var at := AddressesOf(chunks, e.task.meta);
    SlotRange(e.task.ranges, if e.migrating then Migrating(at) else Importing(at))
  }

  // ----- where the slots are placed -----

  /** The nodes that hold the slots of the chunk's two parts. */
  function SlotNodes(role: Role): (nat, nat) {
    match role
    case Normal => (0, 2)
    case FirstChunkMaster => (0, 1)
    case SecondChunkMaster => (3, 2)
  }

  predicate IsMaster(role: Role, i: nat) {
    match role
    case Normal => i % 2 == 0
    case FirstChunkMaster => i < 2
    case SecondChunkMaster => i >= 2
  }

  function PartSlots(chunks: seq<Chunk>, parts: seq<Part>, p: nat): seq<SlotRange>
    requires |parts| == 2 * |chunks| && Sited(parts) && p < |parts|
  {
    var es := parts[p].entries;
    (if parts[p].stable.Some? then [SlotRange(parts[p].stable.value, Stable)] else []) +
    seq(|es|, k requires 0 <= k < |es| => ToSlotRange(chunks, es[k]))
  }

  function NodeSlots(chunks: seq<Chunk>, parts: seq<Part>, c: nat, i: nat): seq<SlotRange>
    requires |parts| == 2 * |chunks| && Sited(parts) && c < |chunks|
  {
    var (first, second) := SlotNodes(chunks[c].role);
    (if i == first then PartSlots(chunks, parts, 2 * c) else []) +
    (if i == second then PartSlots(chunks, parts, 2 * c + 1) else [])
  }

  function NodeOf(chunks: seq<Chunk>, parts: seq<Part>, j: nat): Node
    requires |parts| == 2 * |chunks| && Sited(parts) && j < 4 * |chunks|
  {
    var c, i := j / 4, j % 4;
    Node(NodeAddress(chunks[c], i), ProxyAddress(chunks[c], i / 2),
         NodeSlots(chunks, parts, c, i), IsMaster(chunks[c].role, i))
  }

  function AllNodes(chunks: seq<Chunk>, parts: seq<Part>): (nodes: seq<Node>)
    requires |parts| == 2 * |chunks| && Sited(parts)
    ensures |nodes| == 4 * |chunks|
  {
    seq(4 * |chunks|, j requires 0 <= j < 4 * |chunks| => NodeOf(chunks, parts, j))
  }

  lemma AllNodesAt(chunks: seq<Chunk>, parts: seq<Part>, j: nat)
    requires |parts| == 2 * |chunks| && Sited(parts) && j < 4 * |chunks|
    ensures AllNodes(chunks, parts)[j] == NodeOf(chunks, parts, j)
  {
  }

  lemma NodeAt(chunks: seq<Chunk>, parts: seq<Part>, c: nat, i: nat)
    requires |parts| == 2 * |chunks| && Sited(parts) && c < |chunks| && i < 4
    ensures NodeOf(chunks, parts, 4 * c + i) ==
            Node(NodeAddress(chunks[c], i), ProxyAddress(chunks[c], i / 2),
                 NodeSlots(chunks, parts, c, i), IsMaster(chunks[c].role, i))
  {
    assert (4 * c + i) / 4 == c && (4 * c + i) % 4 == i;
  }

  method BuildNode(chunks: seq<Chunk>, parts: seq<Part>, c: nat, i: nat) returns (node: Node)
    requires |parts| == 2 * |chunks| && Sited(parts) && c < |chunks| && i < 4
    ensures node == NodeOf(chunks, parts, 4 * c + i)
  {
    NodeAt(chunks, parts, c, i);
    var role, slots := chunks[c].role, [];
    if i == SlotNodes(role).0 {
      slots := slots + PartSlots(chunks, parts, 2 * c);
    }
    if i == SlotNodes(role).1 {
      slots := slots + PartSlots(chunks, parts, 2 * c + 1);
    }
    assert slots == NodeSlots(chunks, parts, c, i);
    hide *;
    node := Node(NodeAddress(chunks[c], i), ProxyAddress(chunks[c], i / 2), slots, IsMaster(role, i));
  }

  method ToCluster(chunks: seq<Chunk>, parts: seq<Part>) returns (nodes: seq<Node>)
    requires |parts| == 2 * |chunks| && Sited(parts)
    ensures nodes == AllNodes(chunks, parts)
  {
    hide *;
    nodes := [];
    var c := 0;
    while c < |chunks|
      invariant 0 <= c <= |chunks| && nodes == AllNodes(chunks, parts)[..4 * c]
    {
      var i := 0;
      while i < 4
        invariant 0 <= i <= 4 && nodes == AllNodes(chunks, parts)[..4 * c + i]
      {
        var node := BuildNode(chunks, parts, c, i);
        AllNodesAt(chunks, parts, 4 * c + i);
        nodes := nodes + [node];
        i := i + 1;
      }
      c := c + 1;
    }
  }

  /** The part whose slots a node holds. */
  lemma PartOnNode(chunks: seq<Chunk>, parts: seq<Part>, c: nat, i: nat, r: SlotRange) returns (k: nat)
    requires |parts| == 2 * |chunks| && Sited(parts) && c < |chunks| && i < 4
    requires r in NodeSlots(chunks, parts, c, i)
    ensures k < 2 && r in PartSlots(chunks, parts, 2 * c + k)
    ensures i == NodeIndex(k, chunks[c].role) && i / 2 == ProxyIndex(k, chunks[c].role) && IsMaster(chunks[c].role, i)
  {
    hide PartSlots;
    k := if i == SlotNodes(chunks[c].role).0 then 0 else 1;
  }

  lemma EntryEnds(parts: seq<Part>, epoch: nat, p: nat, e: Entry)
    requires GoodParts(parts, epoch) && p < |parts| && e in parts[p].entries
    ensures e.task.meta.src < |parts| && e.task.meta.dst < |parts|
    ensures p == if e.migrating then e.task.meta.src else e.task.meta.dst
  {
    assert GoodPart(parts[p], p, |parts|, epoch);
  }

  /** An end at part `k` of chunk `c` is named by that chunk's addresses. */
  lemma EntryAddresses(chunks: seq<Chunk>, e: Entry, c: nat, k: nat)
    requires e.task.meta.src < 2 * |chunks| && e.task.meta.dst < 2 * |chunks| && c < |chunks| && k < 2
    requires 2 * c + k == if e.migrating then e.task.meta.src else e.task.meta.dst
    ensures var at, role := ToSlotRange(chunks, e).tag.at, chunks[c].role;
            var node, proxy := NodeAddress(chunks[c], NodeIndex(k, role)), ProxyAddress(chunks[c], ProxyIndex(k, role));
            if e.migrating
            then ToSlotRange(chunks, e).tag == Migrating(at) && at.srcNode == node && at.srcProxy == proxy
            else ToSlotRange(chunks, e).tag == Importing(at) && at.dstNode == node && at.dstProxy == proxy
  {
    hide NodeAddress, ProxyAddress, NodeIndex, ProxyIndex;
    var p := 2 * c + k;
    assert p / 2 == c && p % 2 == k;
  }

  predicate Names(tag: Tag, node: string, proxy: string) {
    match tag
    case Stable => true
    case Migrating(at) => at.srcNode == node && at.srcProxy == proxy
    case Importing(at) => at.dstNode == node && at.dstProxy == proxy
  }

  lemma NamesPart(chunks: seq<Chunk>, parts: seq<Part>, epoch: nat, c: nat, k: nat, r: SlotRange)
    requires |parts| == 2 * |chunks| && GoodParts(parts, epoch) && Sited(parts) && c < |chunks| && k < 2
    requires r in PartSlots(chunks, parts, 2 * c + k)
    ensures Names(r.tag, NodeAddress(chunks[c], NodeIndex(k, chunks[c].role)),
                  ProxyAddress(chunks[c], ProxyIndex(k, chunks[c].role)))
  {
    hide PartSlots, NodeAddress, ProxyAddress, NodeIndex, ProxyIndex, GoodParts, ToSlotRange;
    if !r.tag.Stable? {
      SlotsOfEntries(chunks, parts, 2 * c + k, r);
      var e :| e in parts[2 * c + k].entries && r == ToSlotRange(chunks, e);
      EntryEnds(parts, epoch, 2 * c + k, e);
      EntryAddresses(chunks, e, c, k);
    }
  }

  /** The addresses of a migration name the nodes its ranges are placed on: a
      migrating range sits on its source node, an importing range on its destination,
      and both nodes are masters. */
  lemma PlacedWhereNamed(chunks: seq<Chunk>, parts: seq<Part>, epoch: nat, c: nat, i: nat, r: SlotRange)
    requires |parts| == 2 * |chunks| && GoodParts(parts, epoch) && Sited(parts) && c < |chunks| && i < 4
    requires r in NodeOf(chunks, parts, 4 * c + i).slots
    ensures var node := NodeOf(chunks, parts, 4 * c + i);
            node.master && Names(r.tag, node.address, node.proxy)
  {
    hide *;
    NodeAt(chunks, parts, c, i);
    var k := PartOnNode(chunks, parts, c, i, r);
    NamesPart(chunks, parts, epoch, c, k, r);
  }

  lemma SlotsOfEntries(chunks: seq<Chunk>, parts: seq<Part>, p: nat, r: SlotRange)
    requires |parts| == 2 * |chunks| && Sited(parts) && p < |parts|
    requires r in PartSlots(chunks, parts, p) && !r.tag.Stable?
    ensures exists e :: e in parts[p].entries && r == ToSlotRange(chunks, e)
  {
    var es := parts[p].entries;
    var k :| 0 <= k < |es| && r == ToSlotRange(chunks, es[k]);
    assert es[k] in es;
  }

  // ----- both ends of a migration are told the same -----

  /** The node holding part `p`: its stable slots are there, and it is a master. */
  ghost predicate HoldsPart(node: Node, p: Part) {
    node.master && (p.stable.Some? ==> SlotRange(p.stable.value, Stable) in node.slots)
  }

  lemma EntryPlaced(chunks: seq<Chunk>, parts: seq<Part>, p: nat, e: Entry)
    requires |parts| == 2 * |chunks| && Sited(parts) && p < |parts| && e in parts[p].entries
    ensures ToSlotRange(chunks, e) in PartSlots(chunks, parts, p)
    ensures parts[p].stable.Some? ==> SlotRange(parts[p].stable.value, Stable) in PartSlots(chunks, parts, p)
  {
    var es := parts[p].entries;
    var k :| 0 <= k < |es| && es[k] == e;
    var n := if parts[p].stable.Some? then 1 else 0;
    assert PartSlots(chunks, parts, p)[n + k] == ToSlotRange(chunks, es[k]);
    assert n == 1 ==> PartSlots(chunks, parts, p)[0] == SlotRange(parts[p].stable.value, Stable);
  }

  lemma EntryOnNode(chunks: seq<Chunk>, parts: seq<Part>, p: nat, e: Entry) returns (j: nat)
    requires |parts| == 2 * |chunks| && Sited(parts) && p < |parts| && e in parts[p].entries
    ensures j < 4 * |chunks|
    ensures var node := NodeOf(chunks, parts, j);
            ToSlotRange(chunks, e) in node.slots && HoldsPart(node, parts[p])
  {
    hide NodeOf, PartSlots, ToSlotRange;
    var c, k := p / 2, p % 2;
    assert p == 2 * c + k;
    j := 4 * c + NodeIndex(k, chunks[c].role);
    EntryPlaced(chunks, parts, p, e);
    PartPlaced(chunks, parts, c, k, ToSlotRange(chunks, e));
    if parts[p].stable.Some? {
      PartPlaced(chunks, parts, c, k, SlotRange(parts[p].stable.value, Stable));
    }
  }

  /** What two nodes are told of one migration. */
  ghost predicate SameTag(t: Task, at: Addresses, src: Node, dst: Node) {
    && SlotRange(t.ranges, Migrating(at)) in src.slots && SlotRange(t.ranges, Importing(at)) in dst.slots
    && at == Addresses(t.meta.epoch, src.proxy, src.address, dst.proxy, dst.address)
  }

  lemma BothEntries(parts: seq<Part>, epoch: nat, t: Task)
    requires GoodParts(parts, epoch) && Twins(parts) && t in AllOuts(parts)
    ensures t.meta.src < |parts| && t.meta.dst < |parts|
    ensures Entry(t, true) in parts[t.meta.src].entries && Entry(t, false) in parts[t.meta.dst].entries
  {
    var i := Commit.HalfAt(parts, epoch, true, t);
    OccursMember(AllOuts(parts), t);
    assert Occurs(AllOuts(parts), t) == Occurs(AllIns(parts), t);
    OccursMember(AllIns(parts), t);
    var j := Commit.HalfAt(parts, epoch, false, t);
  }

  lemma TagOf(chunks: seq<Chunk>, t: Task)
    requires t.meta.src < 2 * |chunks| && t.meta.dst < 2 * |chunks|
    ensures var at := ToSlotRange(chunks, Entry(t, true)).tag.at;
            && at.epoch == t.meta.epoch
            && ToSlotRange(chunks, Entry(t, true)) == SlotRange(t.ranges, Migrating(at))
            && ToSlotRange(chunks, Entry(t, false)) == SlotRange(t.ranges, Importing(at))
  {
  }

  /** For every stored migration, the master of its source part and the master of its
      destination part are told the same addresses, which are their own, and its epoch. */
  lemma TagsAgree(chunks: seq<Chunk>, parts: seq<Part>, epoch: nat, t: Task)
    returns (s: nat, d: nat, at: Addresses)
    requires |parts| == 2 * |chunks| && GoodParts(parts, epoch) && Twins(parts) && Sited(parts) && t in AllOuts(parts)
    ensures s < 4 * |chunks| && d < 4 * |chunks| && t.meta.src < |parts| && t.meta.dst < |parts|
    ensures SameTag(t, at, NodeOf(chunks, parts, s), NodeOf(chunks, parts, d))
    ensures HoldsPart(NodeOf(chunks, parts, s), parts[t.meta.src])
    ensures HoldsPart(NodeOf(chunks, parts, d), parts[t.meta.dst])
  {
    hide NodeOf, ToSlotRange, GoodParts, Twins, Sited, HoldsPart;
    BothEntries(parts, epoch, t);
    s := EntryOnNode(chunks, parts, t.meta.src, Entry(t, true));
    d := EntryOnNode(chunks, parts, t.meta.dst, Entry(t, false));
    TagOf(chunks, t);
    at := ToSlotRange(chunks, Entry(t, true)).tag.at;
    assert s == 4 * (s / 4) + s % 4 && d == 4 * (d / 4) + d % 4;
    PlacedWhereNamed(chunks, parts, epoch, s / 4, s % 4, SlotRange(t.ranges, Migrating(at)));
    PlacedWhereNamed(chunks, parts, epoch, d / 4, d % 4, SlotRange(t.ranges, Importing(at)));
  }

  /** A tag on a node belongs to a stored migration with these ranges and this epoch: a
      commit with them is accepted. */
  lemma TagIsStored(chunks: seq<Chunk>, parts: seq<Part>, epoch: nat, j: nat, r: SlotRange)
    requires |parts| == 2 * |chunks| && GoodParts(parts, epoch) && Twins(parts) && Sited(parts) && j < 4 * |chunks|
    requires r in NodeOf(chunks, parts, j).slots && !r.tag.Stable?
    ensures exists t :: t in AllOuts(parts) && t.ranges == r.ranges && t.meta.epoch == r.tag.at.epoch
  {
    hide NodeOf, NodeSlots, PartSlots, GoodParts, Twins, ToSlotRange;
    assert j == 4 * (j / 4) + j % 4;
    NodeAt(chunks, parts, j / 4, j % 4);
    var k := PartOnNode(chunks, parts, j / 4, j % 4, r);
    var p := 2 * (j / 4) + k;
    SlotsOfEntries(chunks, parts, p, r);
    var e :| e in parts[p].entries && r == ToSlotRange(chunks, e);
    TagOf(chunks, e.task);
    HalfIsOut(parts, p, e);
  }

  lemma HalfIsOut(parts: seq<Part>, p: nat, e: Entry)
    requires Twins(parts) && p < |parts| && e in parts[p].entries
    ensures e.task in AllOuts(parts)
  {
    HalvesMember(parts[p].entries, e.migrating, e.task);
    AllHalvesMember(parts, e.migrating, e.task);
    OccursMember(AllOuts(parts), e.task);
    OccursMember(AllIns(parts), e.task);
    assert Occurs(AllOuts(parts), e.task) == Occurs(AllIns(parts), e.task);
  }

  // ----- a proxy without masters -----

  /** No node of the chunk on this proxy is a master. */
  predicate OffProxy(chunk: Chunk, proxy: string) {
    forall i :: 0 <= i < 4 && ProxyAddress(chunk, i / 2) == proxy ==> !IsMaster(chunk.role, i)
  }

  /** The nodes of chunk `c` on this proxy are replicas without slots, and all slot ranges
      of the chunk's parts are on masters of its other proxy. */
  ghost predicate Vacated(chunks: seq<Chunk>, parts: seq<Part>, c: nat, proxy: string)
    requires |parts| == 2 * |chunks| && Sited(parts) && c < |chunks|
  {
    && (forall j :: 4 * c <= j < 4 * c + 4 && NodeOf(chunks, parts, j).proxy == proxy ==>
          !NodeOf(chunks, parts, j).master && NodeOf(chunks, parts, j).slots == [])
    && (forall p, r :: 2 * c <= p < 2 * c + 2 && r in PartSlots(chunks, parts, p) ==>
          exists j :: 4 * c <= j < 4 * c + 4 && OnMaster(NodeOf(chunks, parts, j), r, proxy))
  }

  /** The range is on this master, and not on this proxy. */
  predicate OnMaster(node: Node, r: SlotRange, proxy: string) {
    r in node.slots && node.master && node.proxy != proxy
  }

  /** A part's slots are all on the one master that its role gives. */
  lemma PartPlaced(chunks: seq<Chunk>, parts: seq<Part>, c: nat, k: nat, r: SlotRange)
    requires |parts| == 2 * |chunks| && Sited(parts) && c < |chunks| && k < 2
    requires r in PartSlots(chunks, parts, 2 * c + k)
    ensures var node := NodeOf(chunks, parts, 4 * c + NodeIndex(k, chunks[c].role));
            r in node.slots && node.master
  {
    hide PartSlots, NodeOf, NodeAddress, ProxyAddress;
    NodeAt(chunks, parts, c, NodeIndex(k, chunks[c].role));
  }

  lemma NodeVacant(chunks: seq<Chunk>, parts: seq<Part>, c: nat, i: nat, proxy: string)
    requires |parts| == 2 * |chunks| && Sited(parts) && c < |chunks| && i < 4 && OffProxy(chunks[c], proxy)
    ensures var node := NodeOf(chunks, parts, 4 * c + i);
            && node.proxy == ProxyAddress(chunks[c], i / 2)
            && (node.proxy == proxy ==> !node.master && node.slots == [])
            && (node.master ==> node.proxy != proxy)
  {
    hide PartSlots, NodeOf, NodeAddress, ProxyAddress;
    NodeAt(chunks, parts, c, i);
  }

  lemma OffIsVacated(chunks: seq<Chunk>, parts: seq<Part>, c: nat, proxy: string)
    requires |parts| == 2 * |chunks| && Sited(parts) && c < |chunks| && OffProxy(chunks[c], proxy)
    ensures Vacated(chunks, parts, c, proxy)
  {
    hide NodeOf, PartSlots, OffProxy, Sited, ProxyAddress;
    forall j | 4 * c <= j < 4 * c + 4 && NodeOf(chunks, parts, j).proxy == proxy
      ensures !NodeOf(chunks, parts, j).master && NodeOf(chunks, parts, j).slots == []
    {
      NodeVacant(chunks, parts, c, j - 4 * c, proxy);
    }
    forall p, r | 2 * c <= p < 2 * c + 2 && r in PartSlots(chunks, parts, p)
      ensures exists j :: 4 * c <= j < 4 * c + 4 && OnMaster(NodeOf(chunks, parts, j), r, proxy)
    {
      var i := NodeIndex(p - 2 * c, chunks[c].role);
      PartPlaced(chunks, parts, c, p - 2 * c, r);
      NodeVacant(chunks, parts, c, i, proxy);
      assert OnMaster(NodeOf(chunks, parts, 4 * c + i), r, proxy);
    }
  }
}

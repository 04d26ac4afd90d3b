/** From the nodes of a cluster to the table one of its proxies prints
    (src/broker/query.rs, get_proxy_by_address; src/coordinator/sync.rs,
    generate_proxy_meta_cmd_args; src/proxy/cluster.rs, gen_cluster_slots). */
module ProxyTable {
  import opened Ranges
  import opened ClusterState
  import opened ChunkOps
  import opened LimitedView
  import opened Nodes
  import opened SlotTable

  type Book = map<string, seq<SlotRange>>

  datatype Peer = Peer(proxy: string, slots: seq<SlotRange>)

  /** One line of the table: a range and the proxy serving it. */
  datatype Element = Element(range: Range, address: string)

  // ----- what a proxy is told -----

  /** The masters among the first `n` nodes that are (or are not) on this proxy. */
  function Pick(nodes: seq<Node>, n: nat, proxy: string, own: bool): seq<Node>
    requires n <= |nodes|
  {
    if n == 0 then []
    else Pick(nodes, n - 1, proxy, own) +
         if nodes[n - 1].master && (nodes[n - 1].proxy == proxy) == own then [nodes[n - 1]] else []
  }

  predicate Continues(peers: seq<Peer>, node: Node) {
    peers != [] && peers[|peers| - 1].proxy == node.proxy
  }

  function Join(peers: seq<Peer>, node: Node): seq<Peer> {
    if Continues(peers, node) then
      peers[..|peers| - 1] + [Peer(node.proxy, peers[|peers| - 1].slots + node.slots)]
    else peers + [Peer(node.proxy, node.slots)]
  }

  /** Neighbouring nodes on one proxy become one peer. */
  function Group(nodes: seq<Node>, n: nat): seq<Peer>
    requires n <= |nodes|
  {
    if n == 0 then [] else Join(Group(nodes, n - 1), nodes[n - 1])
  }

  function LocalBook(nodes: seq<Node>, n: nat): Book
    requires n <= |nodes|
  {
    if n == 0 then map[] else LocalBook(nodes, n - 1)[nodes[n - 1].address := nodes[n - 1].slots]
  }

  function PeerBook(peers: seq<Peer>, n: nat): Book
    requires n <= |peers|
  {
    if n == 0 then map[] else PeerBook(peers, n - 1)[peers[n - 1].proxy := peers[n - 1].slots]
  }

  // ----- sums over books -----

  ghost function BookAdv(keys: set<string>, book: Book, states: States, s: nat): nat
    requires keys <= book.Keys
  {
    if keys == {} then 0
    else
      var k :| k in keys;
      Advertised(book[k], states, s) + BookAdv(keys - {k}, book, states, s)
  }

  lemma {:induction false} BookAdvRemove(keys: set<string>, book: Book, k: string, states: States, s: nat)
    requires keys <= book.Keys && k in keys
    ensures BookAdv(keys, book, states, s) == Advertised(book[k], states, s) + BookAdv(keys - {k}, book, states, s)
  {
    var k0 :| k0 in keys &&
              BookAdv(keys, book, states, s) == Advertised(book[k0], states, s) + BookAdv(keys - {k0}, book, states, s);
    if k != k0 {
      BookAdvRemove(keys - {k0}, book, k, states, s);
      BookAdvRemove(keys - {k}, book, k0, states, s);
      assert keys - {k0} - {k} == keys - {k} - {k0};
    }
  }

  lemma {:induction false} BookAdvAgree(keys: set<string>, a: Book, b: Book, states: States, s: nat)
    requires keys <= a.Keys && keys <= b.Keys && forall k :: k in keys ==> a[k] == b[k]
    ensures BookAdv(keys, a, states, s) == BookAdv(keys, b, states, s)
  {
    if keys != {} {
      var k :| k in keys;
      BookAdvRemove(keys, a, k, states, s);
      BookAdvRemove(keys, b, k, states, s);
      BookAdvAgree(keys - {k}, a, b, states, s);
    }
  }

  /** Writing a page replaces what the book had under that key. */
  lemma BookAdvPut(book: Book, k: string, slots: seq<SlotRange>, states: States, s: nat)
    ensures BookAdv(book[k := slots].Keys, book[k := slots], states, s) +
            (if k in book then Advertised(book[k], states, s) else 0) ==
            BookAdv(book.Keys, book, states, s) + Advertised(slots, states, s)
  {
    var book' := book[k := slots];
    BookAdvRemove(book'.Keys, book', k, states, s);
    assert book'.Keys - {k} == book.Keys - {k};
    BookAdvAgree(book.Keys - {k}, book, book', states, s);
    if k in book {
      BookAdvRemove(book.Keys, book, k, states, s);
    } else {
      assert book.Keys - {k} == book.Keys;
    }
  }

  // ----- own masters and peers cover all masters -----

  lemma {:induction false} NodesAdvPrefix(a: seq<Node>, x: Node, n: nat, states: States, s: nat)
    requires n <= |a|
    ensures NodesAdv(a + [x], n, states, s) == NodesAdv(a, n, states, s)
  {
    if n > 0 {
      NodesAdvPrefix(a, x, n - 1, states, s);
    }
  }

  lemma KeepAdv(a: seq<Node>, x: Node, keep: bool, states: States, s: nat)
    ensures var a' := a + if keep then [x] else [];
            NodesAdv(a', |a'|, states, s) ==
            NodesAdv(a, |a|, states, s) + if keep then Advertised(x.slots, states, s) else 0
  {
    if keep {
      NodesAdvPrefix(a, x, |a|, states, s);
    } else {
      assert a + [] == a;
    }
  }

  lemma {:induction false} PickAdv(nodes: seq<Node>, n: nat, proxy: string, states: States, s: nat)
    requires n <= |nodes| && forall j :: 0 <= j < |nodes| && !nodes[j].master ==> nodes[j].slots == []
    ensures var own, others := Pick(nodes, n, proxy, true), Pick(nodes, n, proxy, false);
            NodesAdv(nodes, n, states, s) == NodesAdv(own, |own|, states, s) + NodesAdv(others, |others|, states, s)
  {
    if n > 0 {
      var own, others, x := Pick(nodes, n - 1, proxy, true), Pick(nodes, n - 1, proxy, false), nodes[n - 1];
      PickAdv(nodes, n - 1, proxy, states, s);
      assert NodesAdv(nodes, n, states, s) == NodesAdv(nodes, n - 1, states, s) + Advertised(x.slots, states, s);
      assert !x.master ==> Advertised(x.slots, states, s) == 0;
      hide Advertised, NodesAdv;
      KeepAdv(own, x, x.master && x.proxy == proxy, states, s);
      KeepAdv(others, x, x.master && x.proxy != proxy, states, s);
    }
  }

  ghost function PeersAdv(peers: seq<Peer>, n: nat, states: States, s: nat): nat
    requires n <= |peers|
  {
    if n == 0 then 0 else PeersAdv(peers, n - 1, states, s) + Advertised(peers[n - 1].slots, states, s)
  }

  lemma {:induction false} PeersAdvAgree(a: seq<Peer>, b: seq<Peer>, n: nat, states: States, s: nat)
    requires n <= |a| && n <= |b| && forall k :: 0 <= k < n ==> a[k] == b[k]
    ensures PeersAdv(a, n, states, s) == PeersAdv(b, n, states, s)
  {
    if n > 0 {
      PeersAdvAgree(a, b, n - 1, states, s);
    }
  }

  lemma JoinAdv(peers: seq<Peer>, node: Node, states: States, s: nat)
    ensures PeersAdv(Join(peers, node), |Join(peers, node)|, states, s) ==
            PeersAdv(peers, |peers|, states, s) + Advertised(node.slots, states, s)
  {
    var peers' := Join(peers, node);
    hide Advertised;
    PeersAdvAgree(peers, peers', |peers'| - 1, states, s);
    if Continues(peers, node) {
      AdvertisedAppend(peers[|peers| - 1].slots, node.slots, states, s);
    }
  }

  lemma {:induction false} GroupAdv(nodes: seq<Node>, n: nat, states: States, s: nat)
    requires n <= |nodes|
    ensures PeersAdv(Group(nodes, n), |Group(nodes, n)|, states, s) == NodesAdv(nodes, n, states, s)
  {
    hide Advertised, Join;
    if n > 0 {
      GroupAdv(nodes, n - 1, states, s);
      JoinAdv(Group(nodes, n - 1), nodes[n - 1], states, s);
    }
  }

  /** Nodes of one proxy are neighbours. */
  ghost predicate Contiguous(nodes: seq<Node>) {
    forall i, k :: 0 <= i < k < |nodes| && nodes[i].proxy == nodes[k].proxy ==> nodes[k - 1].proxy == nodes[i].proxy
  }

  ghost predicate DistinctPeers(peers: seq<Peer>) {
    forall i, j :: 0 <= i < j < |peers| ==> peers[i].proxy != peers[j].proxy
  }

  /** Each peer stands for some of the first `n` nodes, the last one for the last. */
  ghost predicate Groups(nodes: seq<Node>, n: nat, peers: seq<Peer>)
    requires n <= |nodes|
  {
    && (n == 0 <==> peers == [])
    && (n > 0 ==> peers[|peers| - 1].proxy == nodes[n - 1].proxy)
    && forall g :: 0 <= g < |peers| ==> exists i :: 0 <= i < n && nodes[i].proxy == peers[g].proxy
  }

  lemma JoinGroups(nodes: seq<Node>, n: nat, peers: seq<Peer>)
    requires n < |nodes| && Groups(nodes, n, peers)
    ensures Groups(nodes, n + 1, Join(peers, nodes[n]))
  {
    var peers' := Join(peers, nodes[n]);
    forall g | 0 <= g < |peers'| ensures exists i :: 0 <= i < n + 1 && nodes[i].proxy == peers'[g].proxy {
      if g < |peers'| - 1 {
        assert peers'[g] == peers[g];
        var i :| 0 <= i < n && nodes[i].proxy == peers[g].proxy;
      }
    }
  }

  lemma NewProxy(nodes: seq<Node>, n: nat, peers: seq<Peer>, g: nat)
    requires n < |nodes| && Contiguous(nodes) && Groups(nodes, n, peers) && g < |peers|
    requires !Continues(peers, nodes[n])
    ensures peers[g].proxy != nodes[n].proxy
  {
    var i :| 0 <= i < n && nodes[i].proxy == peers[g].proxy;
    assert nodes[n - 1].proxy != nodes[n].proxy;
  }

  lemma JoinDistinct(nodes: seq<Node>, n: nat, peers: seq<Peer>)
    requires n < |nodes| && Contiguous(nodes) && Groups(nodes, n, peers) && DistinctPeers(peers)
    ensures DistinctPeers(Join(peers, nodes[n]))
  {
    hide Contiguous, Groups;
    if !Continues(peers, nodes[n]) {
      forall g | 0 <= g < |peers| ensures peers[g].proxy != nodes[n].proxy {
        NewProxy(nodes, n, peers, g);
      }
    }
  }

  lemma {:induction false} GroupDistinct(nodes: seq<Node>, n: nat)
    requires n <= |nodes| && Contiguous(nodes)
    ensures Groups(nodes, n, Group(nodes, n)) && DistinctPeers(Group(nodes, n))
  {
    if n > 0 {
      var peers := Group(nodes, n - 1);
      assert Group(nodes, n) == Join(peers, nodes[n - 1]);
      hide *;
      GroupDistinct(nodes, n - 1);
      JoinGroups(nodes, n - 1, peers);
      JoinDistinct(nodes, n - 1, peers);
    }
  }

  lemma {:induction false} PeerBookAdv(peers: seq<Peer>, n: nat, states: States, s: nat)
    requires n <= |peers| && DistinctPeers(peers)
    ensures BookAdv(PeerBook(peers, n).Keys, PeerBook(peers, n), states, s) == PeersAdv(peers, n, states, s)
    ensures forall k :: k in PeerBook(peers, n) <==> exists i :: 0 <= i < n && peers[i].proxy == k
  {
    if n > 0 {
      PeerBookAdv(peers, n - 1, states, s);
      BookAdvPut(PeerBook(peers, n - 1), peers[n - 1].proxy, peers[n - 1].slots, states, s);
    }
  }

  lemma {:induction false} PeerBookAt(peers: seq<Peer>, n: nat, k: nat)
    requires k < n <= |peers| && DistinctPeers(peers)
    ensures peers[k].proxy in PeerBook(peers, n) && PeerBook(peers, n)[peers[k].proxy] == peers[k].slots
  {
    if k < n - 1 {
      PeerBookAt(peers, n - 1, k);
    }
  }

  /** Every node has a peer. */
  lemma {:induction false} PeerOf(nodes: seq<Node>, n: nat, i: nat) returns (g: nat)
    requires i < n <= |nodes|
    ensures g < |Group(nodes, n)| && Group(nodes, n)[g].proxy == nodes[i].proxy
  {
    if i < n - 1 {
      g := PeerOf(nodes, n - 1, i);
    } else {
      g := |Group(nodes, n)| - 1;
    }
  }

  /** What a peer advertises, one of the nodes it stands for does. */
  lemma {:induction false} PeerSource(nodes: seq<Node>, n: nat, g: nat, states: States, s: nat) returns (i: nat)
    requires n <= |nodes| && g < |Group(nodes, n)| && Advertised(Group(nodes, n)[g].slots, states, s) > 0
    ensures i < n && nodes[i].proxy == Group(nodes, n)[g].proxy && Advertised(nodes[i].slots, states, s) > 0
  {
    hide Advertised;
    var peers, node := Group(nodes, n - 1), nodes[n - 1];
    if g < |Group(nodes, n)| - 1 {
      i := PeerSource(nodes, n - 1, g, states, s);
    } else if Continues(peers, node) {
      AdvertisedAppend(peers[g].slots, node.slots, states, s);
      if Advertised(node.slots, states, s) > 0 {
        i := n - 1;
      } else {
        i := PeerSource(nodes, n - 1, g, states, s);
      }
    } else {
      i := n - 1;
    }
  }

  // ----- the masters on the proxy itself -----

  /** Every proxy of the cluster is in one place only. */
  ghost predicate DistinctProxies(chunks: seq<Chunk>) {
    forall g, h :: 0 <= g < h < 2 * |chunks| ==> HalfOf(chunks, g).proxy != HalfOf(chunks, h).proxy
  }

  /** Both masters of its chunk are on half `h`. */
  predicate HasBothMasters(chunks: seq<Chunk>, h: nat)
    requires h < 2 * |chunks|
  {
    chunks[h / 2].role == if h % 2 == 0 then FirstChunkMaster else SecondChunkMaster
  }

  /** A master is on half `h`. */
  predicate HasMaster(chunks: seq<Chunk>, h: nat)
    requires h < 2 * |chunks|
  {
    chunks[h / 2].role == Normal || HasBothMasters(chunks, h)
  }

  /** The two nodes of a half, as they appear in the cluster. */
  lemma NodeOnHalf(chunks: seq<Chunk>, parts: seq<Part>, h: nat, k: nat)
    requires |parts| == 2 * |chunks| && Sited(parts) && h < 2 * |chunks| && k < 2
    ensures 2 * h + k < 4 * |chunks|
    ensures var node, half := NodeOf(chunks, parts, 2 * h + k), HalfOf(chunks, h);
            && node.proxy == half.proxy
            && node.address == (if k == 0 then half.node0 else half.node1)
            && (node.master <==> if k == 0 then HasMaster(chunks, h) else HasBothMasters(chunks, h))
  {
    var c, i := h / 2, 2 * (h % 2) + k;
    assert 2 * h + k == 4 * c + i;
    NodeAt(chunks, parts, c, i);
  }

  lemma ProxyAt(chunks: seq<Chunk>, parts: seq<Part>, j: nat)
    requires |parts| == 2 * |chunks| && Sited(parts) && j < 4 * |chunks|
    ensures NodeOf(chunks, parts, j).proxy == HalfOf(chunks, j / 2).proxy
  {
    NodeOnHalf(chunks, parts, j / 2, j % 2);
  }

  /** Where the picked nodes come from. */
  lemma {:induction false} PickIndices(nodes: seq<Node>, n: nat, proxy: string, own: bool) returns (idx: seq<nat>)
    requires n <= |nodes|
    ensures |idx| == |Pick(nodes, n, proxy, own)|
    ensures forall i :: 0 <= i < |idx| ==> idx[i] < n && Pick(nodes, n, proxy, own)[i] == nodes[idx[i]]
    ensures forall i, k :: 0 <= i < k < |idx| ==> idx[i] < idx[k]
  {
    if n == 0 {
      idx := [];
    } else {
      idx := PickIndices(nodes, n - 1, proxy, own);
      if nodes[n - 1].master && (nodes[n - 1].proxy == proxy) == own {
        idx := idx + [n - 1];
      }
    }
  }

  lemma {:induction false} PickHas(nodes: seq<Node>, n: nat, proxy: string, own: bool, j: nat)
    requires j < n <= |nodes| && nodes[j].master && (nodes[j].proxy == proxy) == own
    ensures nodes[j] in Pick(nodes, n, proxy, own)
  {
    if j < n - 1 {
      PickHas(nodes, n - 1, proxy, own, j);
    }
  }

  /** Only masters are picked. */
  lemma {:induction false} PickOnly(nodes: seq<Node>, n: nat, proxy: string, own: bool)
    requires n <= |nodes|
    ensures forall x :: x in Pick(nodes, n, proxy, own) ==> x.master && (x.proxy == proxy) == own
  {
    if n > 0 {
      PickOnly(nodes, n - 1, proxy, own);
    }
  }

  /** Between two nodes of one proxy there are only nodes of that proxy. */
  lemma SameHalf(chunks: seq<Chunk>, i: nat, j: nat, k: nat)
    requires DistinctProxies(chunks) && i <= j <= k < 4 * |chunks|
    requires HalfOf(chunks, i / 2).proxy == HalfOf(chunks, k / 2).proxy
    ensures HalfOf(chunks, j / 2).proxy == HalfOf(chunks, i / 2).proxy
  {
    assert i / 2 == k / 2;
    assert i / 2 <= j / 2 <= k / 2;
  }

  lemma IncreasingContiguous(chunks: seq<Chunk>, picked: seq<Node>, idx: seq<nat>)
    requires DistinctProxies(chunks) && |idx| == |picked|
    requires forall i :: 0 <= i < |idx| ==> idx[i] < 4 * |chunks| && picked[i].proxy == HalfOf(chunks, idx[i] / 2).proxy
    requires forall i, k :: 0 <= i < k < |idx| ==> idx[i] < idx[k]
    ensures Contiguous(picked)
  {
    forall i, k | 0 <= i < k < |picked| && picked[i].proxy == picked[k].proxy
      ensures picked[k - 1].proxy == picked[i].proxy
    {
      assert idx[i] <= idx[k - 1] <= idx[k];
      SameHalf(chunks, idx[i], idx[k - 1], idx[k]);
    }
  }

  lemma PickContiguous(chunks: seq<Chunk>, parts: seq<Part>, proxy: string, own: bool)
    requires |parts| == 2 * |chunks| && Sited(parts) && DistinctProxies(chunks)
    ensures Contiguous(Pick(AllNodes(chunks, parts), 4 * |chunks|, proxy, own))
  {
    hide *;
    var nodes := AllNodes(chunks, parts);
    var idx := PickIndices(nodes, 4 * |chunks|, proxy, own);
    forall i | 0 <= i < |idx|
      ensures idx[i] < 4 * |chunks| &&
              Pick(nodes, 4 * |chunks|, proxy, own)[i].proxy == HalfOf(chunks, idx[i] / 2).proxy
    {
      AllNodesAt(chunks, parts, idx[i]);
      ProxyAt(chunks, parts, idx[i]);
    }
    IncreasingContiguous(chunks, Pick(nodes, 4 * |chunks|, proxy, own), idx);
  }

  lemma {:induction false} OwnMasters(nodes: seq<Node>, n: nat, proxy: string, h: nat)
    requires n <= |nodes| && 2 * h + 1 < |nodes|
    requires forall j :: 0 <= j < |nodes| ==> (nodes[j].proxy == proxy <==> j == 2 * h || j == 2 * h + 1)
    ensures Pick(nodes, n, proxy, true) ==
            (if n > 2 * h && nodes[2 * h].master then [nodes[2 * h]] else []) +
            (if n > 2 * h + 1 && nodes[2 * h + 1].master then [nodes[2 * h + 1]] else [])
  {
    if n > 0 {
      OwnMasters(nodes, n - 1, proxy, h);
    }
  }

  lemma OwnOnly(chunks: seq<Chunk>, parts: seq<Part>, h: nat)
    requires |parts| == 2 * |chunks| && Sited(parts) && DistinctProxies(chunks) && h < 2 * |chunks|
    ensures forall j :: 0 <= j < 4 * |chunks| ==>
              (AllNodes(chunks, parts)[j].proxy == HalfOf(chunks, h).proxy <==> j == 2 * h || j == 2 * h + 1)
  {
    forall j | 0 <= j < 4 * |chunks|
      ensures AllNodes(chunks, parts)[j].proxy == HalfOf(chunks, h).proxy <==> j == 2 * h || j == 2 * h + 1
    {
      hide NodeOf, HalfOf, AllNodes, Sited;
      AllNodesAt(chunks, parts, j);
      ProxyAt(chunks, parts, j);
      assert j / 2 == h <==> j == 2 * h || j == 2 * h + 1;
      assert HalfOf(chunks, j / 2).proxy == HalfOf(chunks, h).proxy <==> j / 2 == h;
    }
  }

  lemma LocalBookAdv(own: seq<Node>, states: States, s: nat)
    requires |own| <= 2
    ensures BookAdv(LocalBook(own, |own|).Keys, LocalBook(own, |own|), states, s) +
            (if |own| == 2 && own[0].address == own[1].address then Advertised(own[0].slots, states, s) else 0) ==
            NodesAdv(own, |own|, states, s)
  {
    hide Advertised;
    if |own| >= 1 {
      BookAdvPut(map[], own[0].address, own[0].slots, states, s);
      assert LocalBook(own, 1) == map[own[0].address := own[0].slots];
    }
    if |own| == 2 {
      BookAdvPut(LocalBook(own, 1), own[1].address, own[1].slots, states, s);
      assert LocalBook(own, 2) == LocalBook(own, 1)[own[1].address := own[1].slots];
      assert NodesAdv(own, 1, states, s) == Advertised(own[0].slots, states, s);
    }
  }

  // ----- printing the table -----

  ghost function TableCover(table: seq<Element>, s: nat): nat {
    if table == [] then 0
    else (if Holds(table[0].range, s) then 1 else 0) + TableCover(table[1..], s)
  }

  lemma {:induction false} TableCoverAppend(a: seq<Element>, b: seq<Element>, s: nat)
    ensures TableCover(a + b, s) == TableCover(a, s) + TableCover(b, s)
  {
    if a == [] {
      assert a + b == b;
    } else {
      assert (a + b)[1..] == a[1..] + b;
      TableCoverAppend(a[1..], b, s);
    }
  }

  lemma {:induction false} LineCounts(table: seq<Element>, e: Element, s: nat)
    requires e in table && Holds(e.range, s)
    ensures TableCover(table, s) > 0
  {
    if table[0] != e {
      LineCounts(table[1..], e, s);
    }
  }

  /** An address needs a host and a port. */
  predicate HasPort(address: string) {
    ':' in address
  }

  /** One line per range. */
  method Rows(rl: RangeList, address: string) returns (rows: seq<Element>)
    ensures forall s: nat :: TableCover(rows, s) == Cover(rl, s)
    ensures forall e :: e in rows ==> e.address == address
  {
    rows := [];
    var i := 0;
    while i < |rl|
      invariant 0 <= i <= |rl|
      invariant forall s: nat :: TableCover(rows, s) == Cover(rl[..i], s)
      invariant forall e :: e in rows ==> e.address == address
    {
      var row := [Element(rl[i], address)];
      assert rl[..i + 1] == rl[..i] + [rl[i]];
      forall s: nat ensures TableCover(rows + row, s) == Cover(rl[..i + 1], s) {
        TableCoverAppend(rows, row, s);
        CoverSnoc(rl[..i], rl[i], s);
        assert row[1..] == [];
      }
      rows := rows + row;
      i := i + 1;
    }
    assert rl[..i] == rl;
  }

  /** The lines of one address: everything not ignored. */
  method Lines(slots: seq<SlotRange>, address: string, states: States) returns (rows: seq<Element>)
    ensures forall s: nat :: TableCover(rows, s) == Advertised(slots, states, s)
    ensures forall e :: e in rows ==> e.address == address
  {
    rows := [];
    var i := 0;
    while i < |slots|
      invariant 0 <= i <= |slots|
      invariant forall s: nat :: TableCover(rows, s) == Advertised(slots[..i], states, s)
      invariant forall e :: e in rows ==> e.address == address
    {
      var more: seq<Element> := [];
      if !Ignored(slots[i], states) {
        more := Rows(slots[i].ranges, address);
      }
      assert slots[..i + 1] == slots[..i] + [slots[i]];
      forall s: nat ensures TableCover(rows + more, s) == Advertised(slots[..i + 1], states, s) {
        TableCoverAppend(rows, more, s);
        AdvertisedAppend(slots[..i], [slots[i]], states, s);
        assert [slots[i]][1..] == [];
      }
      rows := rows + more;
      i := i + 1;
    }
    assert slots[..i] == slots;
  }

  /** Every line names an address of the book that advertises the line's slots. */
  ghost predicate Sourced(table: seq<Element>, book: Book, states: States) {
    forall e, s: nat :: e in table && Holds(e.range, s) ==>
      e.address in book && Advertised(book[e.address], states, s) > 0
  }

  lemma MoreSourced(rows: seq<Element>, more: seq<Element>, a: string, book: Book, states: States)
    requires Sourced(rows, book, states) && a in book && forall e :: e in more ==> e.address == a
    requires forall s: nat :: TableCover(more, s) == Advertised(book[a], states, s)
    ensures Sourced(rows + more, book, states)
  {
    hide Advertised, TableCover, Holds;
    forall e, s: nat | e in rows + more && Holds(e.range, s)
      ensures e.address in book && Advertised(book[e.address], states, s) > 0
    {
      if e in more {
        LineCounts(more, e, s);
      }
    }
  }

  method GenClusterSlots(book: Book, states: States) returns (table: Option<seq<Element>>)
    ensures table.None? <==> exists a :: a in book && ':' !in a
    ensures table.Some? ==> forall s: nat :: TableCover(table.value, s) == BookAdv(book.Keys, book, states, s)
    ensures table.Some? ==> Sourced(table.value, book, states)
  {
    var rows: seq<Element>, keys := [], book.Keys;
    while keys != {}
      invariant keys <= book.Keys && forall a :: a in book && a !in keys ==> HasPort(a)
      invariant forall s: nat ::
                  TableCover(rows, s) + BookAdv(keys, book, states, s) == BookAdv(book.Keys, book, states, s)
      invariant Sourced(rows, book, states)
      decreases keys
    {
      var a :| a in keys;
      if !HasPort(a) {
        return None;
      }
      var more := Lines(book[a], a, states);
      forall s: nat
        ensures TableCover(rows + more, s) + BookAdv(keys - {a}, book, states, s) == BookAdv(book.Keys, book, states, s)
      {
        TableCoverAppend(rows, more, s);
        BookAdvRemove(keys, book, a, states, s);
      }
      MoreSourced(rows, more, a, book, states);
      rows, keys := rows + more, keys - {a};
    }
    return Some(rows);
  }

  /** The pages of a book in some order. */
  method Flatten(book: Book, ghost states: States) returns (slots: seq<SlotRange>)
    ensures forall s: nat :: Advertised(slots, states, s) == BookAdv(book.Keys, book, states, s)
  {
    slots := [];
    var keys := book.Keys;
    while keys != {}
      invariant keys <= book.Keys
      invariant forall s: nat ::
                  Advertised(slots, states, s) + BookAdv(keys, book, states, s) == BookAdv(book.Keys, book, states, s)
      decreases keys
    {
      var a :| a in keys;
      forall s: nat
        ensures Advertised(slots + book[a], states, s) + BookAdv(keys - {a}, book, states, s) ==
                BookAdv(book.Keys, book, states, s)
      {
        AdvertisedAppend(slots, book[a], states, s);
        BookAdvRemove(keys, book, a, states, s);
      }
      slots, keys := slots + book[a], keys - {a};
    }
  }

  // ----- the whole way -----

  /** The slots a proxy forgets: when it holds both masters of its chunk and its two
      nodes have one address, the second page replaces the first. */
  ghost function Forgotten(chunks: seq<Chunk>, view: seq<Part>, h: nat, states: States, s: nat): nat
    requires |view| == 2 * |chunks| && h < |view|
  {
    if HasBothMasters(chunks, h) && HalfOf(chunks, h).node0 == HalfOf(chunks, h).node1
    then PartAdv(view[h], states, s) else 0
  }

  lemma GoodSited(parts: seq<Part>, epoch: nat)
    requires GoodParts(parts, epoch)
    ensures Sited(parts)
  {
    forall i, e | 0 <= i < |parts| && e in parts[i].entries
      ensures e.task.meta.src < |parts| && e.task.meta.dst < |parts|
    {
      assert GoodPart(parts[i], i, |parts|, epoch);
    }
  }

  lemma OnlyMastersHoldSlots(chunks: seq<Chunk>, parts: seq<Part>, j: nat)
    requires |parts| == 2 * |chunks| && Sited(parts) && j < 4 * |chunks|
    ensures !NodeOf(chunks, parts, j).master ==> NodeOf(chunks, parts, j).slots == []
  {
  }

  lemma SlotsOnNode(chunks: seq<Chunk>, view: seq<Part>, c: nat, k: nat)
    requires |view| == 2 * |chunks| && Sited(view) && c < |chunks| && k < 2
    requires chunks[c].role == if k == 0 then FirstChunkMaster else SecondChunkMaster
    ensures NodeSlots(chunks, view, c, 2 * k) == PartSlots(chunks, view, 2 * c + k)
  {
    hide PartSlots;
    var a, b := PartSlots(chunks, view, 2 * c), PartSlots(chunks, view, 2 * c + 1);
    if k == 0 {
      assert a + [] == a;
    } else {
      assert [] + b == b;
    }
  }

  lemma BothMastersPage(chunks: seq<Chunk>, view: seq<Part>, c: nat, k: nat)
    requires |view| == 2 * |chunks| && Sited(view) && c < |chunks| && k < 2
    requires chunks[c].role == if k == 0 then FirstChunkMaster else SecondChunkMaster
    ensures NodeOf(chunks, view, 4 * c + 2 * k).slots == PartSlots(chunks, view, 2 * c + k)
  {
    hide *;
    NodeAt(chunks, view, c, 2 * k);
    SlotsOnNode(chunks, view, c, k);
  }

  lemma OwnBookAdv(chunks: seq<Chunk>, view: seq<Part>, h: nat, states: States, s: nat)
    requires |view| == 2 * |chunks| && Sited(view) && DistinctProxies(chunks) && h < |view|
    ensures var own := Pick(AllNodes(chunks, view), 4 * |chunks|, HalfOf(chunks, h).proxy, true);
            BookAdv(LocalBook(own, |own|).Keys, LocalBook(own, |own|), states, s) +
            Forgotten(chunks, view, h, states, s) ==
            NodesAdv(own, |own|, states, s)
  {
    hide AllNodes, NodeOf, PartSlots, Pick, LocalBook, BookAdv, NodesAdv, Advertised, PartAdv, Sited, DistinctProxies;
    var nodes, proxy := AllNodes(chunks, view), HalfOf(chunks, h).proxy;
    OwnOnly(chunks, view, h);
    OwnMasters(nodes, 4 * |chunks|, proxy, h);
    NodeOnHalf(chunks, view, h, 0);
    NodeOnHalf(chunks, view, h, 1);
    AllNodesAt(chunks, view, 2 * h);
    AllNodesAt(chunks, view, 2 * h + 1);
    if HasBothMasters(chunks, h) {
      BothMastersPage(chunks, view, h / 2, h % 2);
    }
    PartAdvertised(chunks, view, h, states, s);
    LocalBookAdv(Pick(nodes, 4 * |chunks|, proxy, true), states, s);
  }

  /** Own pages and peer pages together advertise every slot once, less what is
      forgotten. */
  lemma BooksAdvertise(chunks: seq<Chunk>, view: seq<Part>, h: nat, states: States, s: nat)
    requires |view| == 2 * |chunks| && Sited(view) && DistinctProxies(chunks) && h < |view|
    requires Partition(view) && Twins(view)
    ensures var nodes, proxy := AllNodes(chunks, view), HalfOf(chunks, h).proxy;
            var own, others := Pick(nodes, |nodes|, proxy, true), Pick(nodes, |nodes|, proxy, false);
            var peers := Group(others, |others|);
            var local, remote := LocalBook(own, |own|), PeerBook(peers, |peers|);
            BookAdv(local.Keys, local, states, s) + BookAdv(remote.Keys, remote, states, s) +
            Forgotten(chunks, view, h, states, s) == if s < SLOT_NUM then 1 else 0
  {
    var nodes, proxy := AllNodes(chunks, view), HalfOf(chunks, h).proxy;
    forall j | 0 <= j < |nodes| && !nodes[j].master ensures nodes[j].slots == [] {
      AllNodesAt(chunks, view, j);
      OnlyMastersHoldSlots(chunks, view, j);
    }
    hide *;
    var others := Pick(nodes, |nodes|, proxy, false);
    var peers := Group(others, |others|);
    PartsAdvertiseOnce(view, states, s);
    NodesAdvertised(chunks, view, nodes, |chunks|, states, s);
    PickAdv(nodes, |nodes|, proxy, states, s);
    OwnBookAdv(chunks, view, h, states, s);
    PickContiguous(chunks, view, proxy, false);
    GroupDistinct(others, |others|);
    GroupAdv(others, |others|, states, s);
    PeerBookAdv(peers, |peers|, states, s);
  }

  // ----- who serves which slots -----

  /** What half `g` serves: its own part in the normal layout, both parts of its chunk
      when the masters are on it, nothing otherwise. */
  ghost function ServedBy(chunks: seq<Chunk>, view: seq<Part>, g: nat, states: States, s: nat): nat
    requires |view| == 2 * |chunks| && g < |view|
  {
    var c := g / 2;
    if HasBothMasters(chunks, g) then PartAdv(view[2 * c], states, s) + PartAdv(view[2 * c + 1], states, s)
    else if chunks[c].role == Normal then PartAdv(view[g], states, s)
    else 0
  }

  /** The half part `p` is served from. */
  function Host(chunks: seq<Chunk>, p: nat): nat
    requires p < 2 * |chunks|
  {
    match chunks[p / 2].role
    case Normal => p
    case FirstChunkMaster => 2 * (p / 2)
    case SecondChunkMaster => 2 * (p / 2) + 1
  }

  lemma HostServes(chunks: seq<Chunk>, view: seq<Part>, p: nat, g: nat, states: States, s: nat)
    requires |view| == 2 * |chunks| && p < |view| && g < |view| && PartAdv(view[p], states, s) == 1
    requires forall q :: 0 <= q < |view| && q != p ==> PartAdv(view[q], states, s) == 0
    ensures Host(chunks, p) < |view| && ServedBy(chunks, view, g, states, s) == if g == Host(chunks, p) then 1 else 0
  {
    hide PartAdv;
    var c := g / 2;
    assert 2 * c < |view| && 2 * c + 1 < |view| && (g == 2 * c || g == 2 * c + 1);
  }

  /** Half `g` serves slot `s` and no other half does. */
  ghost predicate Server(chunks: seq<Chunk>, view: seq<Part>, states: States, s: nat, g: nat)
    requires |view| == 2 * |chunks|
  {
    g < |view| && forall k :: 0 <= k < |view| ==> ServedBy(chunks, view, k, states, s) == if k == g then 1 else 0
  }

  /** Exactly one half of the cluster serves a slot. */
  lemma OneServer(chunks: seq<Chunk>, view: seq<Part>, states: States, s: nat) returns (g: nat)
    requires |view| == 2 * |chunks| && Partition(view) && Twins(view) && s < SLOT_NUM
    ensures Server(chunks, view, states, s, g)
  {
    hide PartAdv, PartsAdv, Partition, Twins, ServedBy, Host;
    PartsAdvertiseOnce(view, states, s);
    var p := OnePart(view, |view|, states, s);
    HostServes(chunks, view, p, p, states, s);
    g := Host(chunks, p);
    forall k | 0 <= k < |view| ensures ServedBy(chunks, view, k, states, s) == if k == g then 1 else 0 {
      HostServes(chunks, view, p, k, states, s);
    }
  }

  lemma MastersOf(chunks: seq<Chunk>, c: nat, k: nat)
    requires c < |chunks| && k < 2
    ensures HasBothMasters(chunks, 2 * c + k) <==>
            chunks[c].role == if k == 0 then FirstChunkMaster else SecondChunkMaster
    ensures HasMaster(chunks, 2 * c + k) <==> chunks[c].role == Normal || HasBothMasters(chunks, 2 * c + k)
  {
    assert (2 * c + k) / 2 == c && (2 * c + k) % 2 == k;
  }

  /** The pages on the two nodes of a half. */
  lemma HalfSlots(chunks: seq<Chunk>, view: seq<Part>, c: nat, k: nat)
    requires |view| == 2 * |chunks| && Sited(view) && c < |chunks| && k < 2
    ensures NodeOf(chunks, view, 4 * c + 2 * k).slots ==
            (if HasMaster(chunks, 2 * c + k) then PartSlots(chunks, view, 2 * c + k) else [])
    ensures NodeOf(chunks, view, 4 * c + 2 * k + 1).slots ==
            (if HasBothMasters(chunks, 2 * c + k) then PartSlots(chunks, view, 2 * c + 1 - k) else [])
  {
    hide *;
    MastersOf(chunks, c, k);
    SlotsByRole(chunks, view, c);
    if k == 0 {
      NodeAt(chunks, view, c, 0);
      NodeAt(chunks, view, c, 1);
    } else {
      NodeAt(chunks, view, c, 2);
      NodeAt(chunks, view, c, 3);
    }
  }

  lemma ServedByRole(chunks: seq<Chunk>, view: seq<Part>, c: nat, k: nat, states: States, s: nat)
    requires |view| == 2 * |chunks| && c < |chunks| && k < 2
    ensures ServedBy(chunks, view, 2 * c + k, states, s) ==
            (if HasMaster(chunks, 2 * c + k) then PartAdv(view[2 * c + k], states, s) else 0) +
            (if HasBothMasters(chunks, 2 * c + k) then PartAdv(view[2 * c + 1 - k], states, s) else 0)
  {
    hide PartAdv, HasMaster, HasBothMasters;
    MastersOf(chunks, c, k);
    assert (2 * c + k) / 2 == c;
    if k == 0 {
    }
  }

  lemma EmptyPage(states: States, s: nat)
    ensures Advertised([], states, s) == 0
  {
  }

  lemma ServedAt(chunks: seq<Chunk>, view: seq<Part>, c: nat, k: nat, states: States, s: nat)
    requires |view| == 2 * |chunks| && Sited(view) && c < |chunks| && k < 2
    ensures Advertised(NodeOf(chunks, view, 4 * c + 2 * k).slots, states, s) +
            Advertised(NodeOf(chunks, view, 4 * c + 2 * k + 1).slots, states, s) ==
            ServedBy(chunks, view, 2 * c + k, states, s)
  {
    hide *;
    EmptyPage(states, s);
    HalfSlots(chunks, view, c, k);
    ServedByRole(chunks, view, c, k, states, s);
    var p, q := 2 * c + k, 2 * c + 1 - k;
    PartAdvertised(chunks, view, p, states, s);
    PartAdvertised(chunks, view, q, states, s);
  }

  lemma HalfServes(chunks: seq<Chunk>, view: seq<Part>, g: nat, states: States, s: nat)
    requires |view| == 2 * |chunks| && Sited(view) && g < |view|
    ensures Advertised(NodeOf(chunks, view, 2 * g).slots, states, s) +
            Advertised(NodeOf(chunks, view, 2 * g + 1).slots, states, s) == ServedBy(chunks, view, g, states, s)
  {
    hide *;
    ServedAt(chunks, view, g / 2, g % 2, states, s);
    assert 4 * (g / 2) + 2 * (g % 2) == 2 * g;
  }

  lemma TwoKept(a: Node, b: Node, states: States, s: nat)
    requires (!a.master ==> a.slots == []) && (!b.master ==> b.slots == [])
    ensures var own := (if a.master then [a] else []) + (if b.master then [b] else []);
            NodesAdv(own, |own|, states, s) == Advertised(a.slots, states, s) + Advertised(b.slots, states, s)
  {
    assert Advertised([], states, s) == 0;
    var first := if a.master then [a] else [];
    assert [] + first == first;
    KeepAdv([], a, a.master, states, s);
    KeepAdv(first, b, b.master, states, s);
  }

  /** The own pages are what the proxy's half serves. */
  lemma OwnServes(chunks: seq<Chunk>, view: seq<Part>, h: nat, states: States, s: nat)
    requires |view| == 2 * |chunks| && Sited(view) && DistinctProxies(chunks) && h < |view|
    ensures var own := Pick(AllNodes(chunks, view), 4 * |chunks|, HalfOf(chunks, h).proxy, true);
            NodesAdv(own, |own|, states, s) == ServedBy(chunks, view, h, states, s)
  {
    hide *;
    var nodes, proxy := AllNodes(chunks, view), HalfOf(chunks, h).proxy;
    OwnOnly(chunks, view, h);
    OwnMasters(nodes, 4 * |chunks|, proxy, h);
    HalfServes(chunks, view, h, states, s);
    AllNodesAt(chunks, view, 2 * h);
    AllNodesAt(chunks, view, 2 * h + 1);
    OnlyMastersHoldSlots(chunks, view, 2 * h);
    OnlyMastersHoldSlots(chunks, view, 2 * h + 1);
    TwoKept(nodes[2 * h], nodes[2 * h + 1], states, s);
  }

  function Others(chunks: seq<Chunk>, view: seq<Part>, proxy: string): seq<Node>
    requires |view| == 2 * |chunks| && Sited(view)
  {
    Pick(AllNodes(chunks, view), 4 * |chunks|, proxy, false)
  }

  function RemoteBook(chunks: seq<Chunk>, view: seq<Part>, proxy: string): Book
    requires |view| == 2 * |chunks| && Sited(view)
  {
    var others := Others(chunks, view, proxy);
    PeerBook(Group(others, |others|), |Group(others, |others|)|)
  }

  /** Where the nodes of the other proxies come from. */
  lemma OtherAt(chunks: seq<Chunk>, view: seq<Part>, proxy: string, i: nat) returns (j: nat)
    requires |view| == 2 * |chunks| && Sited(view) && i < |Others(chunks, view, proxy)|
    ensures j < 4 * |chunks| && Others(chunks, view, proxy)[i] == NodeOf(chunks, view, j)
    ensures NodeOf(chunks, view, j).master && HalfOf(chunks, j / 2).proxy == NodeOf(chunks, view, j).proxy != proxy
  {
    hide AllNodes, NodeOf, HalfOf, Pick, Sited;
    var nodes := AllNodes(chunks, view);
    var idx := PickIndices(nodes, 4 * |chunks|, proxy, false);
    PickOnly(nodes, 4 * |chunks|, proxy, false);
    j := idx[i];
    AllNodesAt(chunks, view, j);
    ProxyAt(chunks, view, j);
  }

  /** What a page of a peer advertises, another half of that address serves. */
  lemma RemoteServes(chunks: seq<Chunk>, view: seq<Part>, h: nat, a: string, states: States, s: nat)
    returns (g: nat)
    requires |view| == 2 * |chunks| && Sited(view) && DistinctProxies(chunks) && h < |view|
    requires a in RemoteBook(chunks, view, HalfOf(chunks, h).proxy)
    requires Advertised(RemoteBook(chunks, view, HalfOf(chunks, h).proxy)[a], states, s) > 0
    ensures g < |view| && g != h && HalfOf(chunks, g).proxy == a && ServedBy(chunks, view, g, states, s) > 0
  {
    hide Advertised, AllNodes, NodeOf, HalfOf, Others, Group, PeerBook, Contiguous, Sited, DistinctProxies,
         ServedBy, Groups;
    var proxy := HalfOf(chunks, h).proxy;
    var others := Others(chunks, view, proxy);
    var peers := Group(others, |others|);
    OthersContiguous(chunks, view, proxy);
    GroupDistinct(others, |others|);
    PeerBookAdv(peers, |peers|, states, s);
    var k :| 0 <= k < |peers| && peers[k].proxy == a;
    PeerBookAt(peers, |peers|, k);
    var i := PeerSource(others, |others|, k, states, s);
    var j := OtherAt(chunks, view, proxy, i);
    g := j / 2;
    HalfServes(chunks, view, g, states, s);
    assert j == 2 * g || j == 2 * g + 1;
  }

  lemma OthersContiguous(chunks: seq<Chunk>, view: seq<Part>, proxy: string)
    requires |view| == 2 * |chunks| && Sited(view) && DistinctProxies(chunks)
    ensures Contiguous(Others(chunks, view, proxy))
  {
    hide Contiguous, Pick, AllNodes, DistinctProxies, Sited;
    PickContiguous(chunks, view, proxy, false);
  }

  lemma PeerHasMaster(chunks: seq<Chunk>, view: seq<Part>, h: nat, a: string) returns (g: nat)
    requires |view| == 2 * |chunks| && Sited(view) && DistinctProxies(chunks) && h < |view|
    requires a in RemoteBook(chunks, view, HalfOf(chunks, h).proxy)
    ensures g < |view| && g != h && HasMaster(chunks, g) && HalfOf(chunks, g).proxy == a
  {
    hide AllNodes, NodeOf, HalfOf, Others, Group, PeerBook, Contiguous, Sited, DistinctProxies,
         HasBothMasters, HasMaster;
    var proxy := HalfOf(chunks, h).proxy;
    var others := Others(chunks, view, proxy);
    var peers := Group(others, |others|);
    OthersContiguous(chunks, view, proxy);
    GroupDistinct(others, |others|);
    PeerBookAdv(peers, |peers|, map[], 0);
    var k :| 0 <= k < |peers| && peers[k].proxy == a;
    var i :| 0 <= i < |others| && others[i].proxy == peers[k].proxy;
    var j := OtherAt(chunks, view, proxy, i);
    g := j / 2;
    NodeOnHalf(chunks, view, g, j % 2);
    MasterOnHalf(chunks, g);
  }

  lemma PickedHasPeer(nodes: seq<Node>, proxy: string, j: nat)
    requires j < |nodes| && nodes[j].master && nodes[j].proxy != proxy
    requires Contiguous(Pick(nodes, |nodes|, proxy, false))
    ensures var others := Pick(nodes, |nodes|, proxy, false);
            nodes[j].proxy in PeerBook(Group(others, |others|), |Group(others, |others|)|)
  {
    hide *;
    var others := Pick(nodes, |nodes|, proxy, false);
    PickHas(nodes, |nodes|, proxy, false, j);
    var i :| 0 <= i < |others| && others[i] == nodes[j];
    GroupDistinct(others, |others|);
    var k := PeerOf(others, |others|, i);
    PeerBookAt(Group(others, |others|), |Group(others, |others|)|, k);
  }

  lemma MasterHasPeer(chunks: seq<Chunk>, view: seq<Part>, h: nat, g: nat)
    requires |view| == 2 * |chunks| && Sited(view) && DistinctProxies(chunks) && h < |view|
    requires g < |view| && g != h && HasMaster(chunks, g)
    ensures HalfOf(chunks, g).proxy in RemoteBook(chunks, view, HalfOf(chunks, h).proxy)
  {
    hide *;
    var nodes, proxy := AllNodes(chunks, view), HalfOf(chunks, h).proxy;
    OtherHalf(chunks, g, h);
    NodeOnHalf(chunks, view, g, 0);
    AllNodesAt(chunks, view, 2 * g);
    PickContiguous(chunks, view, proxy, false);
    PickedHasPeer(nodes, proxy, 2 * g);
    RemoteBookIs(chunks, view, proxy);
  }

  lemma OtherHalf(chunks: seq<Chunk>, g: nat, h: nat)
    requires DistinctProxies(chunks) && g < 2 * |chunks| && h < 2 * |chunks| && g != h
    ensures HalfOf(chunks, g).proxy != HalfOf(chunks, h).proxy
  {
    hide HalfOf;
  }

  lemma RemoteBookIs(chunks: seq<Chunk>, view: seq<Part>, proxy: string)
    requires |view| == 2 * |chunks| && Sited(view)
    ensures var others := Pick(AllNodes(chunks, view), |AllNodes(chunks, view)|, proxy, false);
            RemoteBook(chunks, view, proxy) == PeerBook(Group(others, |others|), |Group(others, |others|)|)
  {
    hide AllNodes, Pick, Group, PeerBook, Sited;
  }

  lemma MasterOnHalf(chunks: seq<Chunk>, h: nat)
    requires h < 2 * |chunks|
    ensures HasBothMasters(chunks, h) ==> HasMaster(chunks, h)
  {
  }

  // ----- when slots are forgotten -----

  /** The proxy forgets slots: it holds both masters of its chunk, its two nodes have one
      address, and the first of the two pages shows something. */
  predicate Forgets(chunks: seq<Chunk>, view: seq<Part>, h: nat, states: States)
    requires |view| == 2 * |chunks| && h < |view|
  {
    HasBothMasters(chunks, h) && HalfOf(chunks, h).node0 == HalfOf(chunks, h).node1 && Shows(view[h], states)
  }

  lemma ForgetsExactly(chunks: seq<Chunk>, view: seq<Part>, h: nat, states: States, epoch: nat)
    requires |view| == 2 * |chunks| && h < |view| && GoodParts(view, epoch)
    ensures Forgets(chunks, view, h, states) <==> exists s: nat :: Forgotten(chunks, view, h, states, s) > 0
  {
    assert GoodPart(view[h], h, |view|, epoch);
    hide PartAdv, Shows, GoodPart;
    if Forgets(chunks, view, h, states) {
      ShowsSomething(view[h], states, h, |view|, epoch);
      var s: nat :| PartAdv(view[h], states, s) > 0;
      assert Forgotten(chunks, view, h, states, s) > 0;
    }
    if s: nat :| Forgotten(chunks, view, h, states, s) > 0 {
      if !Shows(view[h], states) {
        ShowsNothing(view[h], states, s);
      }
    }
  }

  // ----- the table of a member proxy -----

  /** The address printed for half `g` by the proxy of half `h`. */
  function Printed(chunks: seq<Chunk>, h: nat, service: string, g: nat): string
    requires g < 2 * |chunks|
  {
    if g == h then service else HalfOf(chunks, g).proxy
  }

  /** Every line names, for each of its slots, a half that serves it. */
  ghost predicate NamesSome(table: seq<Element>, chunks: seq<Chunk>, view: seq<Part>, h: nat, service: string,
                               states: States)
    requires |view| == 2 * |chunks|
  {
    forall e, s: nat :: e in table && Holds(e.range, s) ==>
      exists g :: 0 <= g < |view| && ServedBy(chunks, view, g, states, s) > 0 &&
                  e.address == Printed(chunks, h, service, g)
  }

  /** The two halves of the table together. */
  lemma TableNames(chunks: seq<Chunk>, view: seq<Part>, h: nat, service: string, slots: seq<SlotRange>,
                   rows: seq<Element>, remoteRows: seq<Element>, states: States)
    requires |view| == 2 * |chunks| && Sited(view) && DistinctProxies(chunks) && h < |view|
    requires forall s: nat :: Advertised(slots, states, s) > 0 ==> ServedBy(chunks, view, h, states, s) > 0
    requires Sourced(rows, map[service := slots], states)
    requires Sourced(remoteRows, RemoteBook(chunks, view, HalfOf(chunks, h).proxy), states)
    ensures NamesSome(rows + remoteRows, chunks, view, h, service, states)
  {
    hide Advertised, ServedBy, RemoteBook, HalfOf, Sited, DistinctProxies, Holds;
    forall e, s: nat | e in rows + remoteRows && Holds(e.range, s)
      ensures exists g :: 0 <= g < |view| && ServedBy(chunks, view, g, states, s) > 0 &&
                          e.address == Printed(chunks, h, service, g)
    {
      if e in rows {
        assert e.address == Printed(chunks, h, service, h);
      } else {
        var g := RemoteServes(chunks, view, h, e.address, states, s);
        assert e.address == Printed(chunks, h, service, g);
      }
    }
  }

  /** Slot `s` has one server, and every line with that slot carries its address. */
  ghost predicate NamesServer(table: seq<Element>, chunks: seq<Chunk>, view: seq<Part>, h: nat, service: string,
                              states: States, s: nat)
    requires |view| == 2 * |chunks|
  {
    exists g :: 0 <= g < |view| && Server(chunks, view, states, s, g) &&
                forall e :: e in table && Holds(e.range, s) ==> e.address == Printed(chunks, h, service, g)
  }

  lemma NamesTheServer(table: seq<Element>, chunks: seq<Chunk>, view: seq<Part>, h: nat, service: string,
                       states: States, s: nat)
    requires |view| == 2 * |chunks| && Partition(view) && Twins(view) && s < SLOT_NUM
    requires NamesSome(table, chunks, view, h, service, states)
    ensures NamesServer(table, chunks, view, h, service, states, s)
  {
    hide Partition, Twins, ServedBy, Holds, Printed;
    var g := OneServer(chunks, view, states, s);
  }

  // ----- which half that is -----

  /** The address printed for a proxy by the proxy `own`. */
  function AsPrinted(own: string, service: string, proxy: string): string {
    if proxy == own then service else proxy
  }

  lemma HostIs(chunks: seq<Chunk>, h: nat, service: string, p: nat)
    requires DistinctProxies(chunks) && p < 2 * |chunks| && h < 2 * |chunks|
    ensures Host(chunks, p) < 2 * |chunks|
    ensures Printed(chunks, h, service, Host(chunks, p)) ==
            AsPrinted(HalfOf(chunks, h).proxy, service, PartProxy(chunks, p))
  {
    var c, k, g := p / 2, p % 2, Host(chunks, p);
    assert p == 2 * c + k;
    assert HalfOf(chunks, 2 * c) == chunks[c].first && HalfOf(chunks, 2 * c + 1) == chunks[c].second;
    assert HalfOf(chunks, g).proxy == PartProxy(chunks, p);
    if g != h {
      OtherHalf(chunks, g, h);
    }
  }

  lemma HostShows(chunks: seq<Chunk>, view: seq<Part>, p: nat, states: States, s: nat)
    requires |view| == 2 * |chunks| && p < |view| && PartAdv(view[p], states, s) > 0
    ensures Host(chunks, p) < |view| && ServedBy(chunks, view, Host(chunks, p), states, s) > 0
  {
    hide PartAdv;
    var c := p / 2;
    assert p == 2 * c || p == 2 * c + 1;
    assert (2 * c) / 2 == c && (2 * c + 1) / 2 == c && (2 * c) % 2 == 0 && (2 * c + 1) % 2 == 1;
  }

  /** Every line with a slot that part `p` shows carries the address of that part's proxy. */
  lemma LineOfPart(table: seq<Element>, chunks: seq<Chunk>, view: seq<Part>, h: nat, service: string, states: States,
                   p: nat, s: nat, e: Element)
    requires |view| == 2 * |chunks| && DistinctProxies(chunks) && h < |view| && p < |view|
    requires NamesServer(table, chunks, view, h, service, states, s) && PartAdv(view[p], states, s) > 0
    requires e in table && Holds(e.range, s)
    ensures e.address == AsPrinted(HalfOf(chunks, h).proxy, service, PartProxy(chunks, p))
  {
    hide PartAdv, ServedBy, Host, Printed, AsPrinted, HalfOf, DistinctProxies, PartProxy, Holds;
    var g :| 0 <= g < |view| && Server(chunks, view, states, s, g) &&
             forall e :: e in table && Holds(e.range, s) ==> e.address == Printed(chunks, h, service, g);
    HostShows(chunks, view, p, states, s);
    HostIs(chunks, h, service, p);
  }

  /** Stable slots are printed with the proxy of their part; slots of a migration with the
      proxy of the source part while its state is PreCheck, with the proxy of the
      destination part in all other states and in none. */
  ghost predicate FollowsSwitch(table: seq<Element>, chunks: seq<Chunk>, view: seq<Part>, own: string, service: string,
                                states: States)
    requires |view| == 2 * |chunks|
  {
    && (forall p, e, s: nat :: 0 <= p < |view| && e in table && Holds(e.range, s) &&
                               Cover(Stored(view[p].stable), s) > 0 ==>
          e.address == AsPrinted(own, service, PartProxy(chunks, p)))
    && (forall t, e, s: nat :: t in AllOuts(view) && e in table && Holds(e.range, s) && Cover(t.ranges, s) > 0 ==>
          && t.meta.src < |view| && t.meta.dst < |view|
          && (t.ranges in states && states[t.ranges] == PreCheck ==>
                e.address == AsPrinted(own, service, PartProxy(chunks, t.meta.src)))
          && (t.ranges in states && states[t.ranges] != PreCheck ==>
                e.address == AsPrinted(own, service, PartProxy(chunks, t.meta.dst)))
          && (t.ranges !in states ==> e.address == AsPrinted(own, service, PartProxy(chunks, t.meta.dst))))
  }

  lemma TableFollowsSwitch(table: seq<Element>, chunks: seq<Chunk>, view: seq<Part>, h: nat, service: string,
                           states: States, epoch: nat)
    requires |view| == 2 * |chunks| && DistinctProxies(chunks) && h < |view|
    requires GoodParts(view, epoch) && Twins(view)
    requires forall s: nat :: TableCover(table, s) > 0 ==> s < SLOT_NUM
    requires forall s: nat :: s < SLOT_NUM ==> NamesServer(table, chunks, view, h, service, states, s)
    ensures FollowsSwitch(table, chunks, view, HalfOf(chunks, h).proxy, service, states)
  {
    var own := HalfOf(chunks, h).proxy;
    forall p, e, s: nat | 0 <= p < |view| && e in table && Holds(e.range, s) && Cover(Stored(view[p].stable), s) > 0
      ensures e.address == AsPrinted(own, service, PartProxy(chunks, p))
    {
      assert PartAdv(view[p], states, s) > 0;
      hide *;
      LineCounts(table, e, s);
      LineOfPart(table, chunks, view, h, service, states, p, s, e);
    }
    forall t, e, s: nat | t in AllOuts(view) && e in table && Holds(e.range, s) && Cover(t.ranges, s) > 0
      ensures t.meta.src < |view| && t.meta.dst < |view|
      ensures e.address == AsPrinted(own, service, PartProxy(chunks,
                if t.ranges in states && states[t.ranges] == PreCheck then t.meta.src else t.meta.dst))
    {
      hide *;
      LineCounts(table, e, s);
      SwitchDecides(view, epoch, t, states, s);
      LineOfPart(table, chunks, view, h, service, states,
                 if t.ranges in states && states[t.ranges] == PreCheck then t.meta.src else t.meta.dst, s, e);
    }
    hide AsPrinted, PartProxy, Cover, Holds, AllOuts;
  }

  /** A peer without a port, or the announced address without one: no table. */
  predicate Unprintable(chunks: seq<Chunk>, h: nat, service: string) {
    exists g :: 0 <= g < 2 * |chunks| && (g == h || HasMaster(chunks, g)) && ':' !in Printed(chunks, h, service, g)
  }

  lemma UnprintablePeer(chunks: seq<Chunk>, view: seq<Part>, h: nat, service: string)
    requires |view| == 2 * |chunks| && Sited(view) && DistinctProxies(chunks) && h < |view| && ':' in service
    ensures (exists a :: a in RemoteBook(chunks, view, HalfOf(chunks, h).proxy) && ':' !in a) <==>
            Unprintable(chunks, h, service)
  {
    hide RemoteBook, HalfOf, Sited, DistinctProxies, HasMaster;
    if a :| a in RemoteBook(chunks, view, HalfOf(chunks, h).proxy) && ':' !in a {
      var g := PeerHasMaster(chunks, view, h, a);
      assert Printed(chunks, h, service, g) == a;
    }
    if g :| 0 <= g < 2 * |chunks| && (g == h || HasMaster(chunks, g)) && ':' !in Printed(chunks, h, service, g) {
      MasterHasPeer(chunks, view, h, g);
    }
  }

  lemma OnePage(service: string, slots: seq<SlotRange>, states: States, s: nat)
    ensures BookAdv({service}, map[service := slots], states, s) == Advertised(slots, states, s)
    ensures map[service := slots].Keys == {service}
  {
    BookAdvPut(map[], service, slots, states, s);
    assert map[][service := slots].Keys == {service};
  }

  /** Every slot is in exactly one line. */
  ghost predicate Complete(table: seq<Element>) {
    forall s: nat :: s < SLOT_NUM ==> TableCover(table, s) == 1
  }

  lemma CompleteExactly(table: seq<Element>, chunks: seq<Chunk>, view: seq<Part>, h: nat, states: States, epoch: nat)
    requires |view| == 2 * |chunks| && h < |view| && GoodParts(view, epoch)
    requires forall s: nat ::
               TableCover(table, s) + Forgotten(chunks, view, h, states, s) == if s < SLOT_NUM then 1 else 0
    ensures Complete(table) <==> !Forgets(chunks, view, h, states)
  {
    hide TableCover, Forgotten, Forgets, GoodParts;
    ForgetsExactly(chunks, view, h, states, epoch);
  }

  /** The table a member proxy prints. It holds no slot twice, names for each slot the one
      half that serves it, and is complete exactly when the proxy forgets nothing. */
  method ProxyClusterSlots(chunks: seq<Chunk>, parts: seq<Part>, limit: nat, proxy: string, service: string,
                           states: States, ghost epoch: nat, ghost h: nat)
    returns (table: Option<seq<Element>>, ghost view: seq<Part>)
    requires SlotsInv(parts, epoch) && |parts| == 2 * |chunks| && DistinctProxies(chunks)
    requires h < |parts| && HalfOf(chunks, h).proxy == proxy
    ensures Located(AllOuts(parts), |parts|) && view == View(parts, limit) && SameOwners(parts, view)
    ensures table.None? <==> Unprintable(chunks, h, service)
    ensures table.Some? ==>
              forall s: nat ::
                TableCover(table.value, s) + Forgotten(chunks, view, h, states, s) == if s < SLOT_NUM then 1 else 0
    ensures table.Some? ==>
              forall s: nat :: s < SLOT_NUM ==> NamesServer(table.value, chunks, view, h, service, states, s)
    ensures table.Some? ==> FollowsSwitch(table.value, chunks, view, proxy, service, states)
    ensures table.Some? ==> (Complete(table.value) <==> !Forgets(chunks, view, h, states))
  {
    ViewIsConsistent(parts, epoch, limit);
    var shown := LimitMigration(parts, limit);
    view := shown;
    GoodSited(view, epoch);
    var nodes := ToCluster(chunks, shown);
    var own, others := Pick(nodes, |nodes|, proxy, true), Pick(nodes, |nodes|, proxy, false);
    var peers := Group(others, |others|);
    var local, remote := LocalBook(own, |own|), PeerBook(peers, |peers|);
    assert remote == RemoteBook(chunks, view, proxy);
    assert ':' in service || (Printed(chunks, h, service, h) == service && Unprintable(chunks, h, service));
    hide *;
    var slots := Flatten(local, states);
    var rows := GenClusterSlots(map[service := slots], states);
    if rows.None? {
      return None, view;
    }
    assert ':' in service by {
      assert service in map[service := slots];
    }
    UnprintablePeer(chunks, view, h, service);
    var remoteRows := GenClusterSlots(remote, states);
    if remoteRows.None? {
      return None, view;
    }
    table := Some(rows.value + remoteRows.value);
    forall s: nat
      ensures TableCover(table.value, s) + Forgotten(chunks, view, h, states, s) == if s < SLOT_NUM then 1 else 0
    {
      OnePage(service, slots, states, s);
      TableCoverAppend(rows.value, remoteRows.value, s);
      BooksAdvertise(chunks, view, h, states, s);
    }
    forall s: nat ensures Advertised(slots, states, s) > 0 ==> ServedBy(chunks, view, h, states, s) > 0 {
      OwnBookAdv(chunks, view, h, states, s);
      OwnServes(chunks, view, h, states, s);
    }
    TableNames(chunks, view, h, service, slots, rows.value, remoteRows.value, states);
    forall s: nat | s < SLOT_NUM ensures NamesServer(table.value, chunks, view, h, service, states, s) {
      NamesTheServer(table.value, chunks, view, h, service, states, s);
    }
    TableFollowsSwitch(table.value, chunks, view, h, service, states, epoch);
    CompleteExactly(table.value, chunks, view, h, states, epoch);
  }

  // ----- a store where slots are forgotten -----

  const SHARED_NODE := [Chunk(FirstChunkMaster, Half("a:1", "a", "n", "n"), Half("b:1", "b", "p", "q"))]

  const TWO_PARTS := [Part(Some([Range(0, 8191)]), []), Part(Some([Range(8192, 16383)]), [])]

  lemma ExampleStore()
    ensures SlotsInv(TWO_PARTS, 0) && DistinctProxies(SHARED_NODE)
  {
    hide Partition, Twins, Rooted, Balanced, GoodParts, Laid;
    NothingLaid(2);
    var first := Part(Some([Range(0, 8191)]), []);
    LayOne([], 2, 0, 8192);
    assert [] + [first] == [first];
    LayOne([first], 2, 8192, 8192);
    assert TWO_PARTS == [first] + [Part(Some([Range(8192, 16383)]), [])];
    LaidIsGood(TWO_PARTS, 2, 0);
  }

  lemma ExampleForgets()
    ensures Forgotten(SHARED_NODE, TWO_PARTS, 0, map[], 0) == 1
  {
    var rl := [Range(0, 8191)];
    assert rl[1..] == [];
    assert Cover(rl, 0) == 1;
  }

  /** After a failover onto a proxy whose two nodes share an address, no line of its
      table holds slot 0. */
  method ForgettingExample() returns (table: Option<seq<Element>>)
    ensures table.Some? && TableCover(table.value, 0) == 0
    ensures SlotsInv(TWO_PARTS, 0) && DistinctProxies(SHARED_NODE)
  {
    ExampleStore();
    ExampleForgets();
    ghost var view;
    table, view := ProxyClusterSlots(SHARED_NODE, TWO_PARTS, 0, "a:1", "s:1", map[], 0, 0);
  }
}

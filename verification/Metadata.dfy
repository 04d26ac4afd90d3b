/** Proxies and the clusters they belong to (src/broker/query.rs, check_metadata;
    src/broker/resource.rs and src/broker/store.rs for the types). */
module Metadata {
  import opened ClusterState
  import opened Failover
  import opened Nodes
  import opened ProxyTable
  import opened Allocator

  datatype Proxy = Proxy(address: string, host: string, node0: string, node1: string, cluster: Option<string>)

  datatype Cluster = Cluster(epoch: nat, chunks: seq<Chunk>, parts: seq<Part>)

  type Proxies = map<string, Proxy>

  type Clusters = map<string, Cluster>

  /** The proxy a half stands for, and that it belongs to this cluster. */
  predicate HalfMatches(half: Half, name: string, proxies: Proxies) {
    half.proxy in proxies &&
    proxies[half.proxy] == Proxy(half.proxy, half.host, half.node0, half.node1, Some(name))
  }

  predicate InChunks(chunks: seq<Chunk>, a: string) {
    exists h :: 0 <= h < 2 * |chunks| && HalfOf(chunks, h).proxy == a
  }

  ghost predicate ChunksMatch(name: string, chunks: seq<Chunk>, proxies: Proxies) {
    && DistinctProxies(chunks)
    && forall h :: 0 <= h < 2 * |chunks| ==> HalfMatches(HalfOf(chunks, h), name, proxies)
  }

  /** The proxy's cluster knows it. */
  predicate Placed(a: string, clusters: Clusters, proxies: Proxies)
    requires a in proxies
  {
    proxies[a].cluster.Some? ==>
      proxies[a].cluster.value in clusters && InChunks(clusters[proxies[a].cluster.value].chunks, a)
  }

  /** What check_metadata looks at. */
  ghost predicate Consistent(clusters: Clusters, proxies: Proxies) {
    && (forall name :: name in clusters ==> ChunksMatch(name, clusters[name].chunks, proxies))
    && (forall a :: a in proxies ==> Placed(a, clusters, proxies))
  }

  predicate Keyed(proxies: Proxies) {
    forall a :: a in proxies ==> proxies[a].address == a
  }

  // ----- changing the chunks of one cluster -----

  function ChunksOf(clusters: Clusters, name: string): seq<Chunk> {
    if name in clusters then clusters[name].chunks else []
  }

  /** The proxies after a cluster's chunks went from `was` to `now`: the new ones
      were free, the dropped ones are, and the rest are as before. */
  ghost predicate Retagged(proxies: Proxies, name: string, was: seq<Chunk>, now: seq<Chunk>, proxies': Proxies) {
    && proxies'.Keys == proxies.Keys
    && (forall a :: a in proxies && InChunks(now, a) && !InChunks(was, a) ==> proxies[a].cluster.None?)
    && (forall a :: a in proxies && !InChunks(now, a) ==>
          proxies'[a] == if InChunks(was, a) then proxies[a].(cluster := None) else proxies[a])
    && ChunksMatch(name, now, proxies')
  }

  lemma OwnCluster(name: string, chunks: seq<Chunk>, proxies: Proxies, a: string)
    requires ChunksMatch(name, chunks, proxies) && InChunks(chunks, a)
    ensures a in proxies && proxies[a].cluster == Some(name)
  {
    var h :| 0 <= h < 2 * |chunks| && HalfOf(chunks, h).proxy == a;
    assert HalfMatches(HalfOf(chunks, h), name, proxies);
  }

  /** A cluster that did not change still matches its proxies. */
  lemma OthersMatch(clusters: Clusters, proxies: Proxies, name: string, now: seq<Chunk>, proxies': Proxies,
                    other: string)
    requires Consistent(clusters, proxies) && Retagged(proxies, name, ChunksOf(clusters, name), now, proxies')
    requires other in clusters && other != name
    ensures ChunksMatch(other, clusters[other].chunks, proxies')
  {
    var chunks, was := clusters[other].chunks, ChunksOf(clusters, name);
    assert ChunksMatch(other, chunks, proxies);
    forall h | 0 <= h < 2 * |chunks| ensures HalfMatches(HalfOf(chunks, h), other, proxies') {
      var a := HalfOf(chunks, h).proxy;
      assert HalfMatches(HalfOf(chunks, h), other, proxies);
      if InChunks(was, a) {
        OwnCluster(name, was, proxies, a);
      }
      if InChunks(now, a) {
        OwnCluster(name, now, proxies', a);
      }
    }
  }

  lemma StillPlaced(clusters: Clusters, proxies: Proxies, name: string, clusters': Clusters, proxies': Proxies,
                    a: string)
    requires Consistent(clusters, proxies) && a in proxies'
    requires Retagged(proxies, name, ChunksOf(clusters, name), ChunksOf(clusters', name), proxies')
    requires forall x :: x != name ==>
               (x in clusters <==> x in clusters') && (x in clusters ==> clusters'[x] == clusters[x])
    ensures Placed(a, clusters', proxies')
  {
    var was, now := ChunksOf(clusters, name), ChunksOf(clusters', name);
    if InChunks(now, a) {
      OwnCluster(name, now, proxies', a);
    } else if !InChunks(was, a) {
      assert Placed(a, clusters, proxies);
    }
  }

  /** Replacing the chunks of one cluster, or dropping it, keeps the metadata
      consistent when its proxies are re-tagged. */
  lemma SetChunks(clusters: Clusters, proxies: Proxies, name: string, clusters': Clusters, proxies': Proxies)
    requires Consistent(clusters, proxies)
    requires Retagged(proxies, name, ChunksOf(clusters, name), ChunksOf(clusters', name), proxies')
    requires forall x :: x != name ==>
               (x in clusters <==> x in clusters') && (x in clusters ==> clusters'[x] == clusters[x])
    ensures Consistent(clusters', proxies')
  {
    forall x | x in clusters' ensures ChunksMatch(x, clusters'[x].chunks, proxies') {
      if x != name {
        OthersMatch(clusters, proxies, name, ChunksOf(clusters', name), proxies', x);
      }
    }
    forall a | a in proxies' ensures Placed(a, clusters', proxies') {
      StillPlaced(clusters, proxies, name, clusters', proxies', a);
    }
  }

  // ----- tagging proxies -----

  /** The proxies of these chunks get this cluster. */
  function Tagged(proxies: Proxies, chunks: seq<Chunk>, cluster: Option<string>): (proxies': Proxies)
    ensures proxies'.Keys == proxies.Keys
  {
    map a | a in proxies :: if InChunks(chunks, a) then proxies[a].(cluster := cluster) else proxies[a]
  }

  lemma InChunksSnoc(chunks: seq<Chunk>, c: nat, a: string)
    requires c < |chunks|
    ensures InChunks(chunks[..c + 1], a) <==> InChunks(chunks[..c], a) || HasProxy(chunks[c], a)
  {
    var now, was := chunks[..c + 1], chunks[..c];
    assert forall h :: 0 <= h < 2 * c ==> HalfOf(now, h) == HalfOf(was, h);
    assert HalfOf(now, 2 * c) == chunks[c].first && HalfOf(now, 2 * c + 1) == chunks[c].second;
  }

  /** Tags (or frees) the proxies of the chunks that are known. */
  method TagProxies(proxies0: Proxies, chunks: seq<Chunk>, cluster: Option<string>) returns (proxies: Proxies)
    ensures proxies == Tagged(proxies0, chunks, cluster)
  {
    proxies := proxies0;
    var c := 0;
    assert chunks[..0] == [];
    while c < |chunks|
      invariant 0 <= c <= |chunks| && proxies == Tagged(proxies0, chunks[..c], cluster)
    {
      var first, second := chunks[c].first.proxy, chunks[c].second.proxy;
      if first in proxies {
        proxies := proxies[first := proxies[first].(cluster := cluster)];
      }
      if second in proxies {
        proxies := proxies[second := proxies[second].(cluster := cluster)];
      }
      forall a | a in proxies0
        ensures InChunks(chunks[..c + 1], a) <==> InChunks(chunks[..c], a) || a == first || a == second
      {
        InChunksSnoc(chunks, c, a);
      }
      c := c + 1;
    }
    assert chunks[..c] == chunks;
  }

  lemma TagKeyed(proxies: Proxies, chunks: seq<Chunk>, cluster: Option<string>)
    requires Keyed(proxies)
    ensures Keyed(Tagged(proxies, chunks, cluster))
  {
  }

  // ----- the halves of chunks -----

  /** Only roles differ. */
  predicate SameHalves(a: seq<Chunk>, b: seq<Chunk>) {
    |a| == |b| && forall c :: 0 <= c < |a| ==> a[c].first == b[c].first && a[c].second == b[c].second
  }

  /** A change of roles needs no tagging. */
  lemma RolesChange(proxies: Proxies, name: string, was: seq<Chunk>, now: seq<Chunk>)
    requires ChunksMatch(name, was, proxies) && SameHalves(was, now)
    ensures Retagged(proxies, name, was, now, proxies)
  {
    assert forall h :: 0 <= h < 2 * |was| ==> HalfOf(was, h) == HalfOf(now, h);
    assert forall a :: InChunks(was, a) <==> InChunks(now, a);
  }

  /** Dropping chunks frees their proxies. */
  lemma DropChunks(proxies: Proxies, name: string, chunks: seq<Chunk>, n: nat)
    requires ChunksMatch(name, chunks, proxies) && n <= |chunks|
    ensures Retagged(proxies, name, chunks, chunks[..n], Tagged(proxies, chunks[n..], None))
  {
    var now, gone := chunks[..n], chunks[n..];
    var proxies' := Tagged(proxies, gone, None);
    assert forall h :: 0 <= h < 2 * n ==> HalfOf(now, h) == HalfOf(chunks, h);
    assert forall h :: 0 <= h < 2 * |gone| ==> HalfOf(gone, h) == HalfOf(chunks, 2 * n + h);
    forall a ensures InChunks(chunks, a) <==> InChunks(now, a) || InChunks(gone, a) {
      SplitChunks(chunks, n, a);
    }
    forall h | 0 <= h < 2 * n ensures HalfMatches(HalfOf(now, h), name, proxies') {
      assert HalfMatches(HalfOf(chunks, h), name, proxies);
    }
    assert DistinctProxies(now);
  }

  lemma SplitChunks(chunks: seq<Chunk>, n: nat, a: string)
    requires n <= |chunks|
    ensures InChunks(chunks, a) <==> InChunks(chunks[..n], a) || InChunks(chunks[n..], a)
  {
    var now, gone := chunks[..n], chunks[n..];
    assert forall h :: 0 <= h < 2 * n ==> HalfOf(now, h) == HalfOf(chunks, h);
    assert forall h :: 0 <= h < 2 * |gone| ==> HalfOf(gone, h) == HalfOf(chunks, 2 * n + h);
    if h :| 0 <= h < 2 * |chunks| && HalfOf(chunks, h).proxy == a {
      if h >= 2 * n {
        assert HalfOf(gone, h - 2 * n).proxy == a;
      }
    }
  }

  // ----- new chunks -----

  function HalfFor(p: Proxy): Half {
    Half(p.address, p.host, p.node0, p.node1)
  }

  function NewChunks(proxies: Proxies, pairs: seq<(string, string)>): (chunks: seq<Chunk>)
    requires forall i :: 0 <= i < |pairs| ==> pairs[i].0 in proxies && pairs[i].1 in proxies
    ensures |chunks| == |pairs|
    ensures forall i :: 0 <= i < |pairs| ==>
              chunks[i] == Chunk(Normal, HalfFor(proxies[pairs[i].0]), HalfFor(proxies[pairs[i].1]))
  {
    seq(|pairs|, i requires 0 <= i < |pairs| =>
      Chunk(Normal, HalfFor(proxies[pairs[i].0]), HalfFor(proxies[pairs[i].1])))
  }

  /** Proxies that can be given to a cluster. */
  function FreeProxies(proxies: Proxies, failed: set<string>, reported: set<string>): Free {
    map a | a in proxies && proxies[a].cluster.None? && a !in failed && a !in reported :: proxies[a].host
  }

  /** A registered proxy that is in no cluster, not failed over and not reported. */
  predicate Usable(proxies: Proxies, failed: set<string>, reported: set<string>, a: string) {
    a in proxies && proxies[a].cluster == None && a !in failed && a !in reported
  }

  /** Disjoint pairs of usable proxies on different hosts. */
  predicate UsablePairs(proxies: Proxies, failed: set<string>, reported: set<string>, pairs: seq<(string, string)>) {
    && (forall i, j :: 0 <= i < j < |pairs| ==>
          pairs[i].0 != pairs[j].0 && pairs[i].0 != pairs[j].1 && pairs[i].1 != pairs[j].0 && pairs[i].1 != pairs[j].1)
    && (forall i :: 0 <= i < |pairs| ==>
          && Usable(proxies, failed, reported, pairs[i].0) && Usable(proxies, failed, reported, pairs[i].1)
          && proxies[pairs[i].0].host != proxies[pairs[i].1].host)
  }

  lemma FreeIsUsable(proxies: Proxies, failed: set<string>, reported: set<string>)
    ensures forall a :: a in FreeProxies(proxies, failed, reported) <==> Usable(proxies, failed, reported, a)
    ensures forall a :: a in FreeProxies(proxies, failed, reported) ==>
              FreeProxies(proxies, failed, reported)[a] == proxies[a].host
  {
  }

  lemma PairingIsUsable(proxies: Proxies, failed: set<string>, reported: set<string>, pairs: seq<(string, string)>)
    ensures Pairing(FreeProxies(proxies, failed, reported), pairs) <==> UsablePairs(proxies, failed, reported, pairs)
  {
    var free := FreeProxies(proxies, failed, reported);
    FreeIsUsable(proxies, failed, reported);
    hide FreeProxies, Usable;
    if Pairing(free, pairs) {
      forall i | 0 <= i < |pairs| ensures Usable(proxies, failed, reported, pairs[i].0) {
        assert CrossHost(free, pairs[i]);
      }
    }
    if UsablePairs(proxies, failed, reported, pairs) {
      forall i, j | 0 <= i < |pairs| && 0 <= j < |pairs| ensures pairs[i].0 != pairs[j].1 {
        assert i == j || i < j || j < i;
      }
    }
  }

  ghost predicate AllFree(proxies: Proxies, free: Free) {
    forall a :: a in free ==> a in proxies && proxies[a].cluster.None?
  }

  function PairMember(pairs: seq<(string, string)>, h: nat): string
    requires h < 2 * |pairs|
  {
    if h % 2 == 0 then pairs[h / 2].0 else pairs[h / 2].1
  }

  lemma NewHalf(proxies: Proxies, free: Free, pairs: seq<(string, string)>, h: nat)
    requires Keyed(proxies) && AllFree(proxies, free) && Pairing(free, pairs) && h < 2 * |pairs|
    ensures forall i :: 0 <= i < |pairs| ==> pairs[i].0 in proxies && pairs[i].1 in proxies
    ensures var a := PairMember(pairs, h);
            && a in free && a in proxies && HalfOf(NewChunks(proxies, pairs), h) == HalfFor(proxies[a])
  {
    forall i | 0 <= i < |pairs| ensures pairs[i].0 in proxies && pairs[i].1 in proxies {
      assert CrossHost(free, pairs[i]);
    }
    assert CrossHost(free, pairs[h / 2]);
  }

  lemma PairMembersDiffer(pairs: seq<(string, string)>, g: nat, h: nat)
    requires Separate(pairs) && g < h < 2 * |pairs|
    ensures PairMember(pairs, g) != PairMember(pairs, h)
  {
    assert g / 2 <= h / 2;
  }

  lemma AppendedDistinct(proxies: Proxies, name: string, was: seq<Chunk>, free: Free, pairs: seq<(string, string)>)
    requires ChunksMatch(name, was, proxies) && Keyed(proxies) && AllFree(proxies, free) && Pairing(free, pairs)
    requires forall i :: 0 <= i < |pairs| ==> pairs[i].0 in proxies && pairs[i].1 in proxies
    ensures DistinctProxies(was + NewChunks(proxies, pairs))
  {
    var spare := NewChunks(proxies, pairs);
    var now, n := was + spare, 2 * |was|;
    forall g, h | 0 <= g < h < 2 * |now| ensures HalfOf(now, g).proxy != HalfOf(now, h).proxy {
      HalfOfAppend(was, spare, g);
      HalfOfAppend(was, spare, h);
      if h >= n {
        NewHalf(proxies, free, pairs, h - n);
        if g >= n {
          NewHalf(proxies, free, pairs, g - n);
          PairMembersDiffer(pairs, g - n, h - n);
        } else {
          assert HalfMatches(HalfOf(was, g), name, proxies);
        }
      }
    }
  }

  lemma HalfOfAppend(a: seq<Chunk>, b: seq<Chunk>, h: nat)
    requires h < 2 * |a + b|
    ensures HalfOf(a + b, h) == if h < 2 * |a| then HalfOf(a, h) else HalfOf(b, h - 2 * |a|)
  {
  }

  /** Chunks made of free proxies can be added to a cluster. */
  lemma AppendChunks(proxies: Proxies, name: string, was: seq<Chunk>, free: Free, pairs: seq<(string, string)>)
    requires ChunksMatch(name, was, proxies) && Keyed(proxies) && AllFree(proxies, free) && Pairing(free, pairs)
    requires forall i :: 0 <= i < |pairs| ==> pairs[i].0 in proxies && pairs[i].1 in proxies
    ensures var now := was + NewChunks(proxies, pairs);
            Retagged(proxies, name, was, now, Tagged(proxies, now, Some(name)))
  {
    var spare := NewChunks(proxies, pairs);
    var now := was + spare;
    var proxies' := Tagged(proxies, now, Some(name));
    AppendedDistinct(proxies, name, was, free, pairs);
    forall h | 0 <= h < 2 * |now|
      ensures HalfMatches(HalfOf(now, h), name, proxies')
      ensures InChunks(was, HalfOf(now, h).proxy) || proxies[HalfOf(now, h).proxy].cluster.None?
    {
      var a := HalfOf(now, h).proxy;
      assert InChunks(now, a);
      HalfOfAppend(was, spare, h);
      if h < 2 * |was| {
        assert HalfMatches(HalfOf(was, h), name, proxies);
      } else {
        NewHalf(proxies, free, pairs, h - 2 * |was|);
      }
    }
    forall a | InChunks(was, a) ensures InChunks(now, a) {
      var h :| 0 <= h < 2 * |was| && HalfOf(was, h).proxy == a;
      HalfOfAppend(was, spare, h);
    }
  }

  // ----- replacing one proxy -----

  function WithHalf(chunk: Chunk, failed: string, half: Half): Chunk {
    if chunk.first.proxy == failed then chunk.(first := half) else chunk.(second := half)
  }

  function Swap(proxies: Proxies, failed: string, spare: string, name: string): Proxies
    requires failed in proxies && spare in proxies
  {
    var freed := proxies[failed := proxies[failed].(cluster := None)];
    freed[spare := freed[spare].(cluster := Some(name))]
  }

  /** A free proxy takes the place of a failed one. */
  lemma ReplaceProxy(proxies: Proxies, name: string, was: seq<Chunk>, c: nat, failed: string, spare: string)
    requires ChunksMatch(name, was, proxies) && Keyed(proxies) && c < |was| && HasProxy(was[c], failed)
    requires spare in proxies && proxies[spare].cluster.None?
    ensures failed in proxies
    ensures Retagged(proxies, name, was, was[c := WithHalf(was[c], failed, HalfFor(proxies[spare]))],
                     Swap(proxies, failed, spare, name))
  {
    var g := if was[c].first.proxy == failed then 2 * c else 2 * c + 1;
    var now := was[c := WithHalf(was[c], failed, HalfFor(proxies[spare]))];
    assert HalfOf(was, g).proxy == failed;
    assert HalfMatches(HalfOf(was, g), name, proxies);
    var proxies' := Swap(proxies, failed, spare, name);
    forall h | 0 <= h < 2 * |was| ensures HalfOf(now, h) == if h == g then HalfFor(proxies[spare]) else HalfOf(was, h) {
    }
    SwappedMatch(proxies, name, was, now, g, spare);
    forall a ensures InChunks(now, a) <==> a == spare || (InChunks(was, a) && a != failed) {
      SwappedMembers(proxies, name, was, now, g, spare, a);
    }
  }

  lemma SwappedMatch(proxies: Proxies, name: string, was: seq<Chunk>, now: seq<Chunk>, g: nat, spare: string)
    requires ChunksMatch(name, was, proxies) && Keyed(proxies) && |now| == |was| && g < 2 * |was|
    requires spare in proxies && proxies[spare].cluster.None?
    requires forall h :: 0 <= h < 2 * |was| ==>
               HalfOf(now, h) == if h == g then HalfFor(proxies[spare]) else HalfOf(was, h)
    ensures HalfOf(was, g).proxy in proxies
    ensures ChunksMatch(name, now, Swap(proxies, HalfOf(was, g).proxy, spare, name))
  {
    assert HalfMatches(HalfOf(was, g), name, proxies);
    var proxies' := Swap(proxies, HalfOf(was, g).proxy, spare, name);
    forall h | 0 <= h < 2 * |was| ensures HalfMatches(HalfOf(now, h), name, proxies') {
      assert HalfMatches(HalfOf(was, h), name, proxies);
    }
    forall i, j | 0 <= i < j < 2 * |now| ensures HalfOf(now, i).proxy != HalfOf(now, j).proxy {
      assert HalfMatches(HalfOf(was, i), name, proxies) && HalfMatches(HalfOf(was, j), name, proxies);
    }
  }

  lemma SwappedMembers(proxies: Proxies, name: string, was: seq<Chunk>, now: seq<Chunk>, g: nat, spare: string,
                       a: string)
    requires ChunksMatch(name, was, proxies) && Keyed(proxies) && |now| == |was| && g < 2 * |was|
    requires spare in proxies && proxies[spare].cluster.None?
    requires forall h :: 0 <= h < 2 * |was| ==>
               HalfOf(now, h) == if h == g then HalfFor(proxies[spare]) else HalfOf(was, h)
    ensures InChunks(now, a) <==> a == spare || (InChunks(was, a) && a != HalfOf(was, g).proxy)
  {
    assert HalfOf(now, g).proxy == spare;
    if InChunks(was, a) && a != HalfOf(was, g).proxy {
      var h :| 0 <= h < 2 * |was| && HalfOf(was, h).proxy == a;
      assert HalfOf(now, h).proxy == a;
    }
    if InChunks(now, a) && a != spare {
      var h :| 0 <= h < 2 * |now| && HalfOf(now, h).proxy == a;
      assert h != g && HalfOf(was, h).proxy == a;
    }
  }
}

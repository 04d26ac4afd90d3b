/** The broker's metadata store and its operations (src/broker/store.rs,
    src/broker/update.rs, src/broker/migrate.rs). */
module MetaStore {
  import opened Ranges
  import opened Shares
  import opened ClusterState
  import opened Planning
  import ScaleOut
  import ScaleDown
  import Commit
  import opened Failover
  import opened Nodes
  import opened ProxyTable
  import opened ChunkOps
  import opened Allocator
  import opened Metadata

  datatype Error =
    | InUse | NoAvailableResource | ResourceNotBalance | AlreadyExisted | ClusterNotFound
    | FreeNodeNotFound | FreeNodeFound | ProxyNotFound | InvalidNodeNum | InvalidClusterName
    | InvalidMigrationTask | MigrationTaskNotFound | MigrationRunning | SlotsAlreadyEven | InvalidProxyAddress

  datatype Result<+T> = Ok(value: T) | Err(error: Error)

  const CLUSTER_NAME_MAX_LENGTH := 31

  predicate ValidChar(c: char) {
    'a' <= c <= 'z' || 'A' <= c <= 'Z' || '0' <= c <= '9' || c == '@' || c == '-' || c == '_'
  }

  predicate ValidName(name: string) {
    |name| <= CLUSTER_NAME_MAX_LENGTH && forall c :: c in name ==> ValidChar(c)
  }

  // ----- the invariant -----

  ghost predicate ClusterOk(cl: Cluster, epoch: nat) {
    |cl.parts| == 2 * |cl.chunks| && SlotsInv(cl.parts, epoch) && cl.epoch <= epoch
  }

  ghost predicate AllSlotsOk(clusters: Clusters, epoch: nat) {
    forall name :: name in clusters ==> ClusterOk(clusters[name], epoch)
  }

  predicate Named(clusters: Clusters) {
    forall name :: name in clusters ==> ValidName(name)
  }

  lemma AllLater(clusters: Clusters, epoch: nat, epoch': nat)
    requires AllSlotsOk(clusters, epoch) && epoch <= epoch'
    ensures AllSlotsOk(clusters, epoch')
  {
    forall name | name in clusters ensures ClusterOk(clusters[name], epoch') {
      LaterEpoch(clusters[name].parts, epoch, epoch');
    }
  }

  lemma AllSet(clusters: Clusters, name: string, cl: Cluster, epoch: nat, epoch': nat)
    requires AllSlotsOk(clusters, epoch) && epoch <= epoch' && ClusterOk(cl, epoch')
    ensures AllSlotsOk(clusters[name := cl], epoch')
  {
    AllLater(clusters, epoch, epoch');
    hide ClusterOk;
  }

  // ----- checking the metadata -----

  method CheckChunks(name: string, chunks: seq<Chunk>, proxies: Proxies) returns (ok: bool)
    ensures ok <==> ChunksMatch(name, chunks, proxies)
  {
    ok := true;
    var seen: set<string> := {};
    var h: nat := 0;
    while h < 2 * |chunks|
      invariant h <= 2 * |chunks|
      invariant ok ==> forall g :: 0 <= g < h ==> HalfMatches(HalfOf(chunks, g), name, proxies)
      invariant ok ==> forall g, k :: 0 <= g < k < h ==> HalfOf(chunks, g).proxy != HalfOf(chunks, k).proxy
      invariant ok ==> forall g :: 0 <= g < h ==> HalfOf(chunks, g).proxy in seen
      invariant forall a :: a in seen ==> exists g :: 0 <= g < h && HalfOf(chunks, g).proxy == a
      invariant !ok ==> !ChunksMatch(name, chunks, proxies)
    {
      var half := HalfOf(chunks, h);
      if half.proxy !in proxies {
        ok := false;
      } else {
        var p := proxies[half.proxy];
        if p.address != half.proxy || p.cluster != Some(name) || half.proxy in seen {
          ok := false;
        }
        seen := seen + {half.proxy};
        if half.host != p.host || half.node0 != p.node0 || half.node1 != p.node1 {
          ok := false;
        }
      }
      h := h + 1;
    }
  }

  method CheckMetadata(clusters: Clusters, proxies: Proxies) returns (ok: bool)
    ensures ok <==> Consistent(clusters, proxies)
  {
    ok := true;
    var names := clusters.Keys;
    while names != {}
      invariant names <= clusters.Keys
      invariant ok <==>
                forall name :: name in clusters && name !in names ==> ChunksMatch(name, clusters[name].chunks, proxies)
      decreases names
    {
      var name :| name in names;
      var matched := CheckChunks(name, clusters[name].chunks, proxies);
      ok := ok && matched;
      names := names - {name};
    }
    var rest := proxies.Keys;
    while rest != {}
      invariant rest <= proxies.Keys
      invariant ok <==>
                && (forall name :: name in clusters ==> ChunksMatch(name, clusters[name].chunks, proxies))
                && (forall a :: a in proxies && a !in rest ==> Placed(a, clusters, proxies))
      decreases rest
    {
      var a :| a in rest;
      ok := ok && Placed(a, clusters, proxies);
      rest := rest - {a};
    }
  }

  // ----- what the allocator is given -----

  function Hosts(proxies: Proxies): set<string> {
    set a | a in proxies :: proxies[a].host
  }

  function FreeHosts(proxies: Proxies): set<string> {
    set a | a in proxies && proxies[a].cluster.None? :: proxies[a].host
  }

  lemma FreeOnFreeHosts(proxies: Proxies, failed: set<string>, reported: set<string>)
    ensures FreeHosts(proxies) <= Hosts(proxies)
    ensures FreeProxies(proxies, failed, reported).Values <= FreeHosts(proxies)
    ensures AllFree(proxies, FreeProxies(proxies, failed, reported))
  {
  }

  /** The hosts of each chunk. */
  function HostPairs(chunks: seq<Chunk>): (list: seq<(string, string)>)
    ensures |list| == |chunks|
  {
    seq(|chunks|, c requires 0 <= c < |chunks| => (chunks[c].first.host, chunks[c].second.host))
  }

  /** How many chunks of these clusters link the two hosts. */
  ghost function LinkSum(names: set<string>, clusters: Clusters, a: string, b: string): nat
    requires names <= clusters.Keys
  {
    if names == {} then 0
    else
      var name :| name in names;
      Chunks(HostPairs(clusters[name].chunks), a, b) + LinkSum(names - {name}, clusters, a, b)
  }

  lemma {:induction false} LinkSumRemove(names: set<string>, clusters: Clusters, name: string, a: string, b: string)
    requires names <= clusters.Keys && name in names
    ensures LinkSum(names, clusters, a, b) ==
            Chunks(HostPairs(clusters[name].chunks), a, b) + LinkSum(names - {name}, clusters, a, b)
  {
    var x :| x in names && LinkSum(names, clusters, a, b) ==
                           Chunks(HostPairs(clusters[x].chunks), a, b) + LinkSum(names - {x}, clusters, a, b);
    hide Chunks, HostPairs;
    if name != x {
      LinkSumRemove(names - {x}, clusters, name, a, b);
      LinkSumRemove(names - {name}, clusters, x, a, b);
      assert names - {x} - {name} == names - {name} - {x};
    }
  }

  lemma {:induction false} ChunksAppend(x: seq<(string, string)>, y: seq<(string, string)>, a: string, b: string)
    ensures Chunks(x + y, a, b) == Chunks(x, a, b) + Chunks(y, a, b)
  {
    if y == [] {
      assert x + y == x;
    } else {
      assert (x + y)[..|x + y| - 1] == x + y[..|y| - 1];
      ChunksAppend(x, y[..|y| - 1], a, b);
    }
  }

  /** The list counts the chunks of all clusters. */
  ghost predicate ListsHosts(clusters: Clusters, list: seq<(string, string)>) {
    forall a, b :: Chunks(list, a, b) == LinkSum(clusters.Keys, clusters, a, b)
  }

  /** The host pairs of all chunks, clusters in any order. */
  method ChunkHosts(clusters: Clusters) returns (list: seq<(string, string)>)
    ensures ListsHosts(clusters, list)
    ensures forall name, c :: name in clusters && 0 <= c < |clusters[name].chunks| ==>
              (clusters[name].chunks[c].first.host, clusters[name].chunks[c].second.host) in list
  {
    list := [];
    var names := clusters.Keys;
    while names != {}
      invariant names <= clusters.Keys
      invariant forall a, b ::
                  Chunks(list, a, b) + LinkSum(names, clusters, a, b) == LinkSum(clusters.Keys, clusters, a, b)
      invariant forall name, c :: name in clusters && name !in names && 0 <= c < |clusters[name].chunks| ==>
                  (clusters[name].chunks[c].first.host, clusters[name].chunks[c].second.host) in list
      decreases names
    {
      var name :| name in names;
      var chunks, c := clusters[name].chunks, 0;
      ghost var before, pairs := list, HostPairs(clusters[name].chunks);
      while c < |chunks|
        invariant 0 <= c <= |chunks| && list == before + pairs[..c]
      {
        list := list + [(chunks[c].first.host, chunks[c].second.host)];
        c := c + 1;
      }
      assert pairs[..c] == pairs;
      forall a, b
        ensures Chunks(list, a, b) + LinkSum(names - {name}, clusters, a, b) == LinkSum(clusters.Keys, clusters, a, b)
      {
        ChunksAppend(before, pairs, a, b);
        LinkSumRemove(names, clusters, name, a, b);
      }
      forall k | 0 <= k < |chunks| ensures (chunks[k].first.host, chunks[k].second.host) in list {
        assert pairs[k] in list;
      }
      names := names - {name};
    }
  }

  predicate HasEmptyPart(parts: seq<Part>) {
    exists i :: 0 <= i < |parts| && parts[i].stable.None?
  }

  /** Every master has slots of its own. */
  predicate AllHaveSlots(parts: seq<Part>) {
    forall i :: 0 <= i < |parts| ==> parts[i].stable.Some?
  }

  lemma EmptyOrNot(parts: seq<Part>)
    ensures HasEmptyPart(parts) <==> !AllHaveSlots(parts)
    ensures HasEmptyPart(parts) <==> exists i :: 0 <= i < |parts| && parts[i].stable.None?
  {
  }

  predicate Failing(chunk: Chunk, failed: set<string>, reported: set<string>) {
    chunk.first.proxy in failed + reported || chunk.second.proxy in failed + reported
  }

  /** A chunk with a failed or reported proxy stays as it is, any other has normal roles. */
  predicate Rebalanced(was: Chunk, failed: set<string>, reported: set<string>, now: Chunk) {
    && now.first == was.first && now.second == was.second
    && (was.first.proxy in failed || was.first.proxy in reported ==> now.role == was.role)
    && (was.second.proxy in failed || was.second.proxy in reported ==> now.role == was.role)
    && (was.first.proxy !in failed + reported && was.second.proxy !in failed + reported ==> now.role == Normal)
  }

  /** Chunks without a failed proxy get their masters back. */
  method RestoreRoles(chunks0: seq<Chunk>, failed: set<string>, reported: set<string>) returns (chunks: seq<Chunk>)
    ensures |chunks| == |chunks0|
    ensures forall c :: 0 <= c < |chunks| ==> Rebalanced(chunks0[c], failed, reported, chunks[c])
  {
    chunks := chunks0;
    var c := 0;
    while c < |chunks|
      invariant 0 <= c <= |chunks| == |chunks0|
      invariant forall k :: 0 <= k < c ==>
                  Rebalanced(chunks0[k], failed, reported, chunks[k])
      invariant forall k :: c <= k < |chunks| ==> chunks[k] == chunks0[k]
    {
      if !Failing(chunks[c], failed, reported) {
        chunks := chunks[c := chunks[c].(role := Normal)];
      }
      c := c + 1;
    }
  }

  function Colons(s: string): nat {
    if s == "" then 0 else (if s[0] == ':' then 1 else 0) + Colons(s[1..])
  }

  function BeforeColon(s: string): string {
    if s == "" || s[0] == ':' then "" else [s[0]] + BeforeColon(s[1..])
  }

  /** Names have at most 31 characters, all ASCII letters, digits, '@', '-' or '_'. */
  lemma NameRules(name: string)
    ensures ValidName(name) <==>
            && |name| <= 31
            && forall i :: 0 <= i < |name| ==>
                 var c := name[i] as int;
                 48 <= c <= 57 || 65 <= c <= 90 || 97 <= c <= 122 || c == 64 || c == 45 || c == 95
  {
    forall i | 0 <= i < |name| ensures name[i] in name {
    }
  }

  lemma {:induction false} NoColons(s: string)
    ensures Colons(s) == 0 <==> ':' !in s
    ensures ':' !in s ==> BeforeColon(s) == s
  {
    if s != "" {
      NoColons(s[1..]);
    }
  }

  /** An address with one colon is a host and a port, and the host is what precedes it. */
  lemma {:induction false} AddressParts(host: string, port: string)
    requires ':' !in host
    ensures Colons(host + ":" + port) == 1 <==> ':' !in port
    ensures BeforeColon(host + ":" + port) == host
  {
    var s := host + ":" + port;
    if host == "" {
      assert s[1..] == port;
      NoColons(port);
    } else {
      assert s[1..] == host[1..] + ":" + port;
      AddressParts(host[1..], port);
    }
  }

  /** Clusters whose chunks were not touched keep matching when a proxy without a
      cluster appears or disappears. */
  lemma FreeProxyMoves(clusters: Clusters, proxies: Proxies, proxies': Proxies, address: string)
    requires Consistent(clusters, proxies)
    requires forall a :: a != address ==>
               (a in proxies <==> a in proxies') && (a in proxies ==> proxies'[a] == proxies[a])
    requires address in proxies ==> proxies[address].cluster.None?
    requires address in proxies' ==> proxies'[address].cluster.None?
    ensures Consistent(clusters, proxies')
  {
    forall name | name in clusters ensures ChunksMatch(name, clusters[name].chunks, proxies') {
      var chunks := clusters[name].chunks;
      assert ChunksMatch(name, chunks, proxies);
      forall h | 0 <= h < 2 * |chunks| ensures HalfMatches(HalfOf(chunks, h), name, proxies') {
        assert HalfMatches(HalfOf(chunks, h), name, proxies);
      }
    }
    forall a | a in proxies' ensures Placed(a, clusters, proxies') {
      if a != address {
        assert Placed(a, clusters, proxies);
      }
    }
  }

  class MetaStore {
    var globalEpoch: nat
    var clusters: Clusters
    var proxies: Proxies
    /** Proxies that were failed over. */
    var failed: set<string>
    /** Proxies reported as failing, with their reporters. */
    var failures: map<string, set<string>>

    ghost predicate MetaOk()
      reads this
    {
      Consistent(clusters, proxies) && Keyed(proxies) && Named(clusters)
    }

    ghost predicate Valid()
      reads this
    {
      MetaOk() && AllSlotsOk(clusters, globalEpoch)
    }

    constructor ()
      ensures Valid() && globalEpoch == 0 && clusters == map[] && proxies == map[]
      ensures failed == {} && failures == map[]
    {
      globalEpoch, clusters, proxies := 0, map[], map[];
      failed, failures := {}, map[];
    }

    function Free(): Free
      reads this
    {
      FreeProxies(proxies, failed, failures.Keys)
    }

    method AddProxy(address: string, node0: string, node1: string, host: Option<string>) returns (r: Result<()>)
      requires Valid()
      modifies this
      ensures Valid()
      ensures Colons(address) != 1 ==> r == Err(InvalidProxyAddress) && unchanged(this)
      ensures Colons(address) == 1 ==>
                var known := address in old(proxies);
                var cleared := address in old(failed) || address in old(failures);
                && clusters == old(clusters)
                && proxies == (if known then old(proxies) else old(proxies)[address :=
                     Proxy(address, if host.Some? then host.value else BeforeColon(address), node0, node1, None)])
                && failed == old(failed) - {address} && failures == old(failures) - {address}
                && globalEpoch == old(globalEpoch) + (if !known || cleared then 1 else 0)
                && r == if known then Err(AlreadyExisted) else Ok(())
    {
      if Colons(address) != 1 {
        return Err(InvalidProxyAddress);
      }
      var name := if host.Some? then host.value else BeforeColon(address);
      var known := address in proxies;
      if !known {
        proxies := proxies[address := Proxy(address, name, node0, node1, None)];
        FreeProxyMoves(clusters, old(proxies), proxies, address);
      }
      var cleared := address in failed;
      failed := failed - {address};
      cleared := address in failures || cleared;
      failures := failures - {address};
      if !known || cleared {
        globalEpoch := globalEpoch + 1;
        AllLater(clusters, old(globalEpoch), globalEpoch);
      }
      return if known then Err(AlreadyExisted) else Ok(());
    }

    method RemoveProxy(address: string) returns (r: Result<()>)
      requires Valid()
      modifies this
      ensures Valid()
      ensures address !in old(proxies) ==> r == Err(ProxyNotFound)
      ensures address in old(proxies) && old(proxies)[address].cluster.Some? ==> r == Err(InUse)
      ensures r.Err? ==> unchanged(this)
      ensures r.Ok? <==> address in old(proxies) && old(proxies)[address].cluster.None?
      ensures r.Ok? ==>
                && clusters == old(clusters) && proxies == old(proxies) - {address}
                && failed == old(failed) - {address} && failures == old(failures) - {address}
                && globalEpoch == old(globalEpoch) + 1
    {
      if address !in proxies {
        return Err(ProxyNotFound);
      }
      if proxies[address].cluster.Some? {
        return Err(InUse);
      }
      proxies := proxies - {address};
      FreeProxyMoves(clusters, old(proxies), proxies, address);
      failed, failures := failed - {address}, failures - {address};
      globalEpoch := globalEpoch + 1;
      AllLater(clusters, old(globalEpoch), globalEpoch);
      return Ok(());
    }

    method AddFailure(address: string, reporter: string) returns (added: bool)
      requires Valid()
      modifies this
      ensures Valid()
      ensures added == !(address in old(failures) && reporter in old(failures)[address])
      ensures !added ==> unchanged(this)
      ensures added ==>
                && clusters == old(clusters) && proxies == old(proxies) && failed == old(failed)
                && globalEpoch == old(globalEpoch) + 1
                && failures == old(failures)[address :=
                     (if address in old(failures) then old(failures)[address] else {}) + {reporter}]
    {
      if address in failures && reporter in failures[address] {
        return false;
      }
      globalEpoch := globalEpoch + 1;
      failures := failures[address := (if address in failures then failures[address] else {}) + {reporter}];
      AllLater(clusters, old(globalEpoch), globalEpoch);
      return true;
    }

    /** Disjoint cross-host pairs of free proxies, or none if there are no such pairs. */
    method FreeChunks(proxyNum: nat) returns (r: Allocation)
      requires proxyNum % 2 == 0
      ensures r.Pairs? || r.NoAvailableResource?
      ensures r.Pairs? ==>
                && Pairing(Free(), r.pairs) && UsablePairs(proxies, failed, failures.Keys, r.pairs)
                && 2 * |r.pairs| == proxyNum
      ensures r.NoAvailableResource? ==>
                forall pairs :: UsablePairs(proxies, failed, failures.Keys, pairs) ==> 2 * |pairs| != proxyNum
    {
      var hosts := ChunkHosts(clusters);
      FreeOnFreeHosts(proxies, failed, failures.Keys);
      r := GenerateFreeChunks(Free(), Hosts(proxies), FreeHosts(proxies), hosts, proxyNum);
      forall pairs
        ensures Pairing(Free(), pairs) <==> UsablePairs(proxies, failed, failures.Keys, pairs)
      {
        PairingIsUsable(proxies, failed, failures.Keys, pairs);
      }
    }

    /** A new cluster gets exactly the nodes asked for, from free proxies, each chunk
        across two hosts. Its slots form a balanced partition exactly when there is a
        slot for every master; all errors leave the store as it was. */
    method AddCluster(name: string, nodeNum: nat) returns (r: Result<()>, ghost pairs: seq<(string, string)>)
      requires Valid()
      modifies this
      ensures MetaOk()
      ensures r.Err? ==>
                && unchanged(this)
                && r.error == (if !ValidName(name) then InvalidClusterName
                               else if name in clusters then AlreadyExisted
                               else if nodeNum % 4 != 0 || nodeNum == 0 then InvalidNodeNum
                               else Error.NoAvailableResource)
      ensures r.Ok? <==>
                && ValidName(name) && name !in old(clusters) && nodeNum % 4 == 0 && nodeNum > 0
                && exists ps :: UsablePairs(old(proxies), old(failed), old(failures).Keys, ps) && 4 * |ps| == nodeNum
      ensures r.Ok? ==>
                && UsablePairs(old(proxies), old(failed), old(failures).Keys, pairs) && 4 * |pairs| == nodeNum
                && (forall i :: 0 <= i < |pairs| ==> pairs[i].0 in old(proxies) && pairs[i].1 in old(proxies))
                && name in clusters && clusters == old(clusters)[name := clusters[name]]
                && clusters[name].chunks == NewChunks(old(proxies), pairs) && NoEntries(clusters[name].parts)
                && NewFrom(clusters[name].chunks, 0, old(proxies), pairs)
                && proxies == Tagged(old(proxies), clusters[name].chunks, Some(name))
                && failed == old(failed) && failures == old(failures)
                && globalEpoch == clusters[name].epoch == old(globalEpoch) + 1
      ensures r.Ok? && nodeNum / 2 <= SLOT_NUM ==>
                Valid() && Balanced(clusters[name].parts, nodeNum / 2) && InARow(clusters[name].parts, SLOT_NUM)
      ensures r.Ok? && nodeNum / 2 > SLOT_NUM ==> !Partition(clusters[name].parts)
    {
      pairs := [];
      hide Consistent, Keyed, AllSlotsOk, SlotsInv, Pairing, UsablePairs, Balanced, Partition, NoEntries, Tagged,
           NewChunks, FreeProxies;
      if !ValidName(name) {
        return Err(InvalidClusterName), pairs;
      }
      if name in clusters {
        return Err(AlreadyExisted), pairs;
      }
      if nodeNum % 4 != 0 || nodeNum / 2 == 0 {
        return Err(InvalidNodeNum), pairs;
      }
      var allocation := FreeChunks(nodeNum / 2);
      if !allocation.Pairs? {
        return Err(Error.NoAvailableResource), pairs;
      }
      pairs := allocation.pairs;
      PairsKnown(proxies, failed, failures.Keys, pairs);
      var chunks := NewChunks(proxies, allocation.pairs);
      NewlyMade(proxies, pairs, []);
      var epoch := globalEpoch + 1;
      var parts := CreateSlots(nodeNum / 2, epoch);
      NewClusterMeta(clusters, proxies, Free(), name, pairs, Cluster(epoch, chunks, parts));
      NewClusterSlots(clusters, name, Cluster(epoch, chunks, parts), globalEpoch, epoch);
      globalEpoch := epoch;
      proxies := TagProxies(proxies, chunks, Some(name));
      clusters := clusters[name := Cluster(epoch, chunks, parts)];
      return Ok(()), pairs;
    }

    method RemoveCluster(name: string) returns (r: Result<()>)
      requires Valid()
      modifies this
      ensures Valid()
      ensures r.Ok? <==> ValidName(name) && name in old(clusters)
      ensures r.Err? ==> unchanged(this) && r.error == if !ValidName(name) then InvalidClusterName else ClusterNotFound
      ensures r.Ok? ==>
                && clusters == old(clusters) - {name}
                && proxies == Tagged(old(proxies), old(clusters)[name].chunks, None)
                && failed == old(failed) && failures == old(failures) && globalEpoch == old(globalEpoch) + 1
    {
      hide Consistent, Keyed, AllSlotsOk, Tagged;
      if !ValidName(name) {
        return Err(InvalidClusterName);
      }
      if name !in clusters {
        return Err(ClusterNotFound);
      }
      var chunks := clusters[name].chunks;
      DropCluster(clusters, proxies, name, globalEpoch);
      clusters := clusters - {name};
      proxies := TagProxies(proxies, chunks, None);
      globalEpoch := globalEpoch + 1;
      return Ok(());
    }

    /** Adds empty chunks of these free proxies at the end of a cluster. */
    method Grow(name: string, pairs: seq<(string, string)>) returns (nodes: seq<Node>)
      requires Valid() && name in clusters && Pairing(Free(), pairs)
      modifies this
      ensures Valid() && globalEpoch == old(globalEpoch) + 1 && failed == old(failed) && failures == old(failures)
      ensures forall i :: 0 <= i < |pairs| ==> pairs[i].0 in old(proxies) && pairs[i].1 in old(proxies)
      ensures clusters == old(clusters)[name := Grown(old(clusters)[name], old(proxies), pairs, globalEpoch)]
      ensures GrownBy(old(clusters)[name], clusters[name], old(proxies), pairs)
      ensures proxies == Tagged(old(proxies), clusters[name].chunks, Some(name))
      ensures |clusters[name].parts| == 2 * |clusters[name].chunks| && Sited(clusters[name].parts)
      ensures nodes == AllNodes(clusters[name].chunks, clusters[name].parts)
    {
      hide Consistent, Keyed, AllSlotsOk, Pairing, Tagged, FreeProxies, Sited, Grown, AllNodes;
      GrowCluster(clusters, proxies, failed, failures.Keys, name, pairs, globalEpoch, globalEpoch + 1);
      globalEpoch := globalEpoch + 1;
      var cl := Grown(clusters[name], proxies, pairs, globalEpoch);
      GrownMeans(clusters[name], proxies, pairs, globalEpoch);
      clusters := clusters[name := cl];
      nodes := ToCluster(cl.chunks, cl.parts);
      proxies := TagProxies(proxies, cl.chunks, Some(name));
    }

    /** Adds empty chunks at the end and returns their nodes. */
    method AutoAddNodes(name: string, num: nat) returns (r: Result<seq<Node>>, ghost pairs: seq<(string, string)>)
      requires Valid()
      modifies this
      ensures Valid()
      ensures r.Err? ==>
                && unchanged(this)
                && r.error == (if !ValidName(name) then InvalidClusterName
                               else if name !in clusters then ClusterNotFound
                               else if !NoEntries(clusters[name].parts) then MigrationRunning
                               else if num % 4 != 0 || num == 0 then InvalidNodeNum
                               else Error.NoAvailableResource)
      ensures r.Ok? <==>
                && ValidName(name) && name in old(clusters) && NoEntries(old(clusters)[name].parts)
                && num % 4 == 0 && num > 0
                && exists ps :: UsablePairs(old(proxies), old(failed), old(failures).Keys, ps) && 4 * |ps| == num
      ensures r.Ok? ==>
                && name in old(clusters) && UsablePairs(old(proxies), old(failed), old(failures).Keys, pairs)
                && 4 * |pairs| == num
                && (forall i :: 0 <= i < |pairs| ==> pairs[i].0 in old(proxies) && pairs[i].1 in old(proxies))
                && clusters == old(clusters)[name := Grown(old(clusters)[name], old(proxies), pairs, globalEpoch)]
                && GrownBy(old(clusters)[name], clusters[name], old(proxies), pairs)
                && proxies == Tagged(old(proxies), clusters[name].chunks, Some(name))
                && failed == old(failed) && failures == old(failures) && globalEpoch == old(globalEpoch) + 1
                && |clusters[name].parts| == 2 * |clusters[name].chunks| && Sited(clusters[name].parts)
                && |clusters[name].chunks| >= |pairs|
                && r.value == AllNodes(clusters[name].chunks, clusters[name].parts)[4 * |clusters[name].chunks| - num..]
    {
      pairs := [];
      hide Consistent, Keyed, AllSlotsOk, Pairing, UsablePairs, NoEntries, Tagged, FreeProxies, Sited, ValidName,
           AllNodes;
      if !ValidName(name) {
        return Err(InvalidClusterName), pairs;
      }
      if name !in clusters {
        return Err(ClusterNotFound), pairs;
      }
      if !NoEntries(clusters[name].parts) {
        return Err(MigrationRunning), pairs;
      }
      if num % 4 != 0 || num / 2 == 0 {
        return Err(InvalidNodeNum), pairs;
      }
      var allocation := FreeChunks(num / 2);
      if !allocation.Pairs? {
        return Err(Error.NoAvailableResource), pairs;
      }
      pairs := allocation.pairs;
      var nodes := Grow(name, allocation.pairs);
      return Ok(nodes[|nodes| - num..]), pairs;
    }

    /** Drops the chunks without slots, if there are any. */
    method DropFree(name: string) returns (found: bool, ghost n: nat)
      requires Valid() && name in clusters && NoEntries(clusters[name].parts)
      modifies this
      ensures Valid()
      ensures var was := old(clusters)[name];
              && 0 < n <= |was.chunks| && |was.parts| == 2 * |was.chunks| && FreeFrom(was.parts, 2 * n)
              && (forall i :: 0 <= i < 2 * n ==> was.parts[i].stable.Some?)
              && found == (n < |was.chunks|)
              && (found ==>
                    && clusters == old(clusters)[name := KeepFirst(was, n, globalEpoch)]
                    && proxies == Tagged(old(proxies), was.chunks[n..], None)
                    && failed == old(failed) && failures == old(failures) && globalEpoch == old(globalEpoch) + 1)
      ensures !found ==> unchanged(this)
    {
      hide Consistent, Keyed, AllSlotsOk, SlotsInv, NoEntries, Tagged, FreeFrom;
      var was, epoch := clusters[name], globalEpoch + 1;
      OneCluster(clusters, name, globalEpoch);
      var kept, keptParts, removed;
      kept, keptParts, removed, n := RetainUsed(was.chunks, was.parts, globalEpoch);
      if removed == [] {
        return false, n;
      }
      assert Cluster(epoch, kept, keptParts) == KeepFirst(was, n, epoch);
      hide KeepFirst;
      ShrinkCluster(clusters, proxies, name, n, globalEpoch, epoch);
      clusters := clusters[name := Cluster(epoch, kept, keptParts)];
      proxies := TagProxies(proxies, removed, None);
      globalEpoch := epoch;
      return true, n;
    }

    /** Deletes the chunks without slots; they hold no slot and their proxies get free. */
    method AutoDeleteFreeNodes(name: string) returns (r: Result<()>, ghost n: nat)
      requires Valid()
      modifies this
      ensures Valid()
      ensures r.Err? ==> unchanged(this)
      ensures !ValidName(name) ==> r == Err(InvalidClusterName)
      ensures ValidName(name) && name !in old(clusters) ==> r == Err(ClusterNotFound)
      ensures ValidName(name) && name in old(clusters) && !NoEntries(old(clusters)[name].parts) ==>
                r == Err(MigrationRunning)
      ensures ValidName(name) && name in old(clusters) && NoEntries(old(clusters)[name].parts) ==>
                var was := old(clusters)[name];
                && 0 < n <= |was.chunks| && |was.parts| == 2 * |was.chunks| && FreeFrom(was.parts, 2 * n)
                && (forall i :: 0 <= i < 2 * n ==> was.parts[i].stable.Some?)
                && r == (if n < |was.chunks| then Ok(()) else Err(FreeNodeNotFound))
                && (r.Ok? ==>
                      && clusters == old(clusters)[name := KeepFirst(was, n, globalEpoch)]
                      && proxies == Tagged(old(proxies), was.chunks[n..], None)
                      && failed == old(failed) && failures == old(failures) && globalEpoch == old(globalEpoch) + 1)
    {
      n := 0;
      hide Consistent, Keyed, AllSlotsOk, NoEntries, Tagged, ValidName, FreeFrom, KeepFirst;
      if !ValidName(name) {
        return Err(InvalidClusterName), n;
      }
      if name !in clusters {
        return Err(ClusterNotFound), n;
      }
      if !NoEntries(clusters[name].parts) {
        return Err(MigrationRunning), n;
      }
      var found;
      found, n := DropFree(name);
      return if found then Ok(()) else Err(FreeNodeNotFound), n;
    }

    /** Deletes the chunks without slots, if no migration runs and there are any. */
    method AutoDeleteFreeNodesIfExists(name: string) returns (r: Result<()>, ghost n: nat)
      requires Valid()
      modifies this
      ensures Valid()
      ensures r.Ok? <==> name in old(clusters)
      ensures r.Err? ==> unchanged(this) && r.error == if !ValidName(name) then InvalidClusterName else ClusterNotFound
      ensures r.Ok? ==>
                var was := old(clusters)[name];
                && n <= |was.chunks| && |was.parts| == 2 * |was.chunks|
                && (NoEntries(was.parts) ==>
                      0 < n && FreeFrom(was.parts, 2 * n) && forall i :: 0 <= i < 2 * n ==> was.parts[i].stable.Some?)
                && (!NoEntries(was.parts) ==> n == |was.chunks|)
                && (n < |was.chunks| ==>
                      && clusters == old(clusters)[name := KeepFirst(was, n, globalEpoch)]
                      && proxies == Tagged(old(proxies), was.chunks[n..], None)
                      && failed == old(failed) && failures == old(failures) && globalEpoch == old(globalEpoch) + 1)
                && (n == |was.chunks| ==> unchanged(this))
    {
      hide Consistent, Keyed, AllSlotsOk, NoEntries, Tagged, ValidName, FreeFrom, KeepFirst;
      if name in clusters {
        OneCluster(clusters, name, globalEpoch);
      }
      r, n := AutoDeleteFreeNodes(name);
      if r == Err(MigrationRunning) {
        n := |clusters[name].chunks|;
        r := Ok(());
      } else if r == Err(FreeNodeNotFound) {
        r := Ok(());
      }
    }

    /** The epoch moves on, also when the operation then fails. */
    method BumpEpoch()
      requires Valid()
      modifies this
      ensures Valid() && globalEpoch == old(globalEpoch) + 1
      ensures clusters == old(clusters) && proxies == old(proxies) && failed == old(failed) && failures == old(failures)
    {
      AllLater(clusters, globalEpoch, globalEpoch + 1);
      globalEpoch := globalEpoch + 1;
    }

    /** Replaces the slots of one cluster at the current epoch. */
    method SetParts(name: string, parts: seq<Part>)
      requires Valid() && name in clusters && |parts| == |clusters[name].parts|
      modifies this`clusters
      ensures MetaOk()
      ensures SlotsInv(parts, globalEpoch) ==> Valid()
      ensures clusters == old(clusters)[name := Cluster(globalEpoch, old(clusters)[name].chunks, parts)]
    {
      NewSlots(clusters, proxies, name, parts, globalEpoch);
      clusters := clusters[name := Cluster(globalEpoch, clusters[name].chunks, parts)];
    }

    method StartScaleOut(name: string)
      requires Valid() && name in clusters && HasEmptyPart(clusters[name].parts) && NoEntries(clusters[name].parts)
      modifies this`clusters
      ensures Valid()
      ensures name in clusters && clusters == old(clusters)[name := clusters[name]]
      ensures clusters[name].epoch == globalEpoch && clusters[name].chunks == old(clusters)[name].chunks
      ensures var was := old(clusters)[name].parts;
              Started(was, clusters[name].parts, globalEpoch, Min(|was|, SLOT_NUM))
    {
      hide Consistent, Keyed, Named, AllSlotsOk, SlotsInv, NoEntries, HasEmptyPart, Started;
      var was := clusters[name].parts;
      OneCluster(clusters, name, globalEpoch);
      var parts := ScaleOut.PlanScaleOut(was, globalEpoch, globalEpoch);
      StartedSize(was, parts, globalEpoch, Min(|was|, SLOT_NUM));
      SetParts(name, parts);
    }

    /** Scaling out: owners stay as they are, and once all migrations are committed the
        masters share the slots evenly. */
    method MigrateSlots(name: string) returns (r: Result<()>)
      requires Valid()
      modifies this
      ensures Valid()
      ensures proxies == old(proxies) && failed == old(failed) && failures == old(failures)
      ensures globalEpoch == old(globalEpoch) + if ValidName(name) then 1 else 0
      ensures r.Ok? <==>
                && ValidName(name) && name in old(clusters)
                && (exists i :: 0 <= i < |old(clusters)[name].parts| && old(clusters)[name].parts[i].stable.None?)
                && NoEntries(old(clusters)[name].parts)
      ensures r.Err? ==>
                && clusters == old(clusters)
                && r.error == (if !ValidName(name) then InvalidClusterName
                               else if name !in clusters then ClusterNotFound
                               else if AllHaveSlots(clusters[name].parts) then SlotsAlreadyEven
                               else MigrationRunning)
      ensures r.Ok? ==>
                && name in clusters && clusters == old(clusters)[name := clusters[name]]
                && clusters[name].epoch == globalEpoch && clusters[name].chunks == old(clusters)[name].chunks
                && var was := old(clusters)[name].parts;
                   Started(was, clusters[name].parts, globalEpoch, Min(|was|, SLOT_NUM))
    {
      if !ValidName(name) {
        return Err(InvalidClusterName);
      }
      hide Consistent, Keyed, Named, AllSlotsOk, SlotsInv, NoEntries, HasEmptyPart, AllHaveSlots, ValidName, Started;
      BumpEpoch();
      if name !in clusters {
        return Err(ClusterNotFound);
      }
      var was := clusters[name].parts;
      EmptyOrNot(was);
      if !HasEmptyPart(was) {
        return Err(SlotsAlreadyEven);
      }
      if !NoEntries(was) {
        return Err(MigrationRunning);
      }
      StartScaleOut(name);
      return Ok(());
    }

    method StartScaleDown(name: string, nodeNum: nat)
      requires Valid() && name in clusters && !HasEmptyPart(clusters[name].parts) && NoEntries(clusters[name].parts)
      requires 0 < nodeNum < 4 * |clusters[name].chunks| && nodeNum % 4 == 0
      modifies this`clusters
      ensures MetaOk()
      ensures name in clusters && clusters == old(clusters)[name := clusters[name]]
      ensures clusters[name].epoch == globalEpoch && clusters[name].chunks == old(clusters)[name].chunks
      ensures var was, m := old(clusters)[name].parts, nodeNum / 2;
              && 0 < m < |was| <= SLOT_NUM
              && (ScaleDownSafe(|was|, m) ==> Valid() && Started(was, clusters[name].parts, globalEpoch, m))
              && (!ScaleDownSafe(|was|, m) ==> !Partition(clusters[name].parts))
    {
      hide Consistent, Keyed, Named, AllSlotsOk, SlotsInv, NoEntries, HasEmptyPart, Started, ScaleDownSafe, Partition;
      OneCluster(clusters, name, globalEpoch);
      var parts := ShrinkTo(clusters[name].parts, nodeNum, globalEpoch);
      SetParts(name, parts);
    }

    /** Scaling down to `nodeNum` nodes. It keeps the invariant exactly when no
        destination is full before another one lacks slots. */
    method MigrateSlotsToScaleDown(name: string, nodeNum: nat) returns (r: Result<()>)
      requires Valid()
      modifies this
      ensures MetaOk()
      ensures proxies == old(proxies) && failed == old(failed) && failures == old(failures)
      ensures globalEpoch == old(globalEpoch) + if ValidName(name) then 1 else 0
      ensures r.Ok? <==>
                && ValidName(name) && name in old(clusters)
                && AllHaveSlots(old(clusters)[name].parts) && NoEntries(old(clusters)[name].parts)
                && 0 < nodeNum < 4 * |old(clusters)[name].chunks| && nodeNum % 4 == 0
      ensures r.Err? ==>
                && Valid() && clusters == old(clusters)
                && r.error == (if !ValidName(name) then InvalidClusterName
                               else if name !in clusters then ClusterNotFound
                               else if !AllHaveSlots(clusters[name].parts) then FreeNodeFound
                               else if !NoEntries(clusters[name].parts) then MigrationRunning
                               else InvalidNodeNum)
      ensures r.Ok? ==>
                && name in clusters && clusters == old(clusters)[name := clusters[name]]
                && clusters[name].epoch == globalEpoch && clusters[name].chunks == old(clusters)[name].chunks
                && var was, m := old(clusters)[name].parts, nodeNum / 2;
                   && 0 < m < |was| <= SLOT_NUM
                   && (ScaleDownSafe(|was|, m) ==> Valid() && Started(was, clusters[name].parts, globalEpoch, m))
                   && (!ScaleDownSafe(|was|, m) ==> !Partition(clusters[name].parts))
    {
      if !ValidName(name) {
        return Err(InvalidClusterName);
      }
      hide Consistent, Keyed, Named, AllSlotsOk, SlotsInv, NoEntries, HasEmptyPart, AllHaveSlots, ValidName, Started,
           ScaleDownSafe, Partition;
      BumpEpoch();
      if name !in clusters {
        return Err(ClusterNotFound);
      }
      var was := clusters[name].parts;
      EmptyOrNot(was);
      if HasEmptyPart(was) {
        return Err(FreeNodeFound);
      }
      if !NoEntries(was) {
        return Err(MigrationRunning);
      }
      if nodeNum == 0 || nodeNum % 4 != 0 || nodeNum >= |clusters[name].chunks| * 4 {
        return Err(InvalidNodeNum);
      }
      StartScaleDown(name, nodeNum);
      return Ok(());
    }

    /** Commits a finished migration, given its ranges and the epoch of its tag; only the
        stored migration with these ranges and this epoch will do. */
    method CommitMigration(name: string, ranges: RangeList, tag: Option<nat>) returns (r: Result<()>, ghost t: Task)
      requires Valid()
      modifies this
      ensures Valid()
      ensures r.Err? ==>
                && unchanged(this)
                && r.error == (if name !in clusters then ClusterNotFound
                               else if tag.None? then InvalidMigrationTask
                               else MigrationTaskNotFound)
      ensures r.Ok? <==>
                && name in old(clusters) && tag.Some?
                && exists u :: u in AllOuts(old(clusters)[name].parts) && u.ranges == ranges &&
                               u.meta.epoch == tag.value
      ensures r.Ok? ==>
                && proxies == old(proxies) && failed == old(failed) && failures == old(failures)
                && globalEpoch == old(globalEpoch) + 1
                && name in old(clusters)
                && var was := old(clusters)[name];
                   && t in AllOuts(was.parts) && t.ranges == ranges && tag == Some(t.meta.epoch)
                   && t.meta.src < |was.parts| && t.meta.dst < |was.parts|
                   && clusters ==
                      old(clusters)[name := Cluster(globalEpoch, was.chunks, Commit.CommitTask(was.parts, t))]
    {
      hide Consistent, Keyed, Named, AllSlotsOk, SlotsInv, Commit.CommitTask;
      t := Task([], Meta(0, 0, 0));
      if name !in clusters {
        return Err(ClusterNotFound), t;
      }
      if tag.None? {
        return Err(InvalidMigrationTask), t;
      }
      var was := clusters[name].parts;
      OneCluster(clusters, name, globalEpoch);
      var done, parts;
      done, parts, t := Commit.CommitMigration(was, ranges, tag.value, globalEpoch);
      if !done {
        return Err(MigrationTaskNotFound), t;
      }
      Commit.CommitKeepsInv(was, globalEpoch, t);
      LaterEpoch(parts, globalEpoch, globalEpoch + 1);
      BumpEpoch();
      SetParts(name, parts);
      return Ok(()), t;
    }

    /** Gives back masters to chunks without failed proxies. */
    method BalanceMasters(name: string) returns (r: Result<()>)
      requires Valid()
      modifies this
      ensures Valid()
      ensures r.Err? ==> unchanged(this) && r.error == if !ValidName(name) then InvalidClusterName else ClusterNotFound
      ensures r.Ok? <==> ValidName(name) && name in old(clusters)
      ensures r.Ok? ==>
                && proxies == old(proxies) && failed == old(failed) && failures == old(failures)
                && globalEpoch == old(globalEpoch) + 1
                && name in clusters && clusters == old(clusters)[name := clusters[name]]
                && clusters[name].parts == old(clusters)[name].parts && clusters[name].epoch == globalEpoch
                && var was, now := old(clusters)[name].chunks, clusters[name].chunks;
                   && |now| == |was|
                   && forall c :: 0 <= c < |was| ==>
                        Rebalanced(was[c], failed, failures.Keys, now[c])
    {
      hide Consistent, Keyed, AllSlotsOk, SlotsInv;
      if !ValidName(name) {
        return Err(InvalidClusterName);
      }
      if name !in clusters {
        return Err(ClusterNotFound);
      }
      var was := clusters[name];
      var chunks := RestoreRoles(was.chunks, failed, failures.Keys);
      BumpEpoch();
      NewRoles(clusters, proxies, name, chunks, was.parts, globalEpoch);
      clusters := clusters[name := Cluster(globalEpoch, chunks, was.parts)];
      return Ok(());
    }

    /** Moves the masters off a failed proxy; a second call for the same proxy changes
        nothing but the epoch. */
    method Takeover(name: string, address: string) returns (ghost c: nat)
      requires Valid() && name in clusters && InChunks(clusters[name].chunks, address)
      modifies this
      ensures Valid() && globalEpoch == old(globalEpoch) + 1
      ensures proxies == old(proxies) && failed == old(failed) && failures == old(failures)
      ensures name in clusters && clusters == old(clusters)[name := clusters[name]]
      ensures AtChunk(old(clusters)[name].chunks, address, c)
      ensures SameHalves(old(clusters)[name].chunks, clusters[name].chunks)
      ensures SameOwners(old(clusters)[name].parts, clusters[name].parts)
      ensures |old(clusters)[name].parts| == 2 * |old(clusters)[name].chunks|
      ensures AfterTakeover(old(clusters)[name], c, address, globalEpoch, clusters[name])
      ensures OffProxy(clusters[name].chunks[c], address) && ClusterVacated(clusters[name], c, address)
    {
      hide Consistent, Keyed, AllSlotsOk, SlotsInv, TakenOver, SameOwners, OffProxy, ClusterVacated;
      ghost var before := globalEpoch;
      OneCluster(clusters, name, globalEpoch);
      var was := clusters[name];
      BumpEpoch();
      var chunks, parts, stamped;
      chunks, parts, stamped, c := TakeoverMaster(was.chunks, was.parts, address, globalEpoch);
      FoundInChunks(was.chunks, address, c);
      TwoProxiesOf(clusters, proxies, name, c);
      if !stamped {
        OwnersStay(was.parts);
        VacatedCluster(was, c, address, before);
        return;
      }
      TakeoverKeepsInv(was.chunks, was.parts, c, address, before, globalEpoch, chunks, parts);
      TakenOverHalves(was.chunks, was.parts, c, address, globalEpoch, chunks, parts);
      NewRoles(clusters, proxies, name, chunks, parts, globalEpoch);
      clusters := clusters[name := Cluster(globalEpoch, chunks, parts)];
      VacatedCluster(clusters[name], c, address, globalEpoch);
    }

    /** A replacement for a proxy of a cluster: free, and so in no cluster, and on a best
        host. */
    method FindReplacement(name: string, address: string)
      returns (spare: Option<string>, ghost hosts: seq<(string, string)>)
      requires Valid() && name in clusters && InChunks(clusters[name].chunks, address) && address in proxies
      ensures ListsHosts(clusters, hosts)
      ensures spare.Some? ==>
                && spare.value in Free() && BestHost(Free(), hosts, proxies[address].host, Free()[spare.value])
                && forall x :: x in clusters ==> !InChunks(clusters[x].chunks, spare.value)
      ensures spare.None? <==> NoReplacement(Free(), hosts, proxies[address].host)
    {
      var list := ChunkHosts(clusters);
      hosts := list;
      FreeOnFreeHosts(proxies, failed, failures.Keys);
      HostLinked(clusters, proxies, name, address);
      hide Consistent, Keyed, AllSlotsOk, FreeProxies, BestHost, NoReplacement, ListsHosts;
      spare := GenerateNewFreeProxy(Free(), Hosts(proxies), FreeHosts(proxies), list, proxies[address].host);
      if spare.Some? {
        FreeInNoCluster(clusters, proxies, spare.value);
      }
    }

    /** Puts a free proxy in the place of a failed one. */
    method Replace(name: string, address: string, spare: string) returns (ghost at: nat)
      requires Valid() && name in clusters && InChunks(clusters[name].chunks, address)
      requires spare in proxies && proxies[spare].cluster.None?
      modifies this
      ensures Valid() && globalEpoch == old(globalEpoch) + 1
      ensures failed == old(failed) && failures == old(failures)
      ensures address in old(proxies) && proxies == Swap(old(proxies), address, spare, name)
      ensures name in clusters && clusters == old(clusters)[name := clusters[name]]
      ensures clusters[name].parts == old(clusters)[name].parts && clusters[name].epoch == globalEpoch
      ensures var was := old(clusters)[name].chunks;
              && AtChunk(was, address, at)
              && clusters[name].chunks == was[at := WithHalf(was[at], address, HalfFor(old(proxies)[spare]))]
    {
      hide Consistent, Keyed, AllSlotsOk, SlotsInv, Swap, WithHalf, HalfFor;
      var was := clusters[name];
      var c := LocateProxy(was.chunks, address);
      at := c;
      FoundInChunks(was.chunks, address, c);
      BumpEpoch();
      SwapProxy(clusters, proxies, name, c, address, spare, globalEpoch);
      var chunks := was.chunks[c := WithHalf(was.chunks[c], address, HalfFor(proxies[spare]))];
      clusters := clusters[name := Cluster(globalEpoch, chunks, was.parts)];
      proxies := Swap(proxies, address, spare, name);
    }

    /** Failover of a proxy: a free proxy is only marked; otherwise its masters move to
        its peer, no slot changes its owner, and a free proxy of a best host takes its
        place, if there is a host to take one from. */
    method ReplaceFailedProxy(address: string)
      returns (r: Result<Option<string>>, ghost c: nat, ghost mid: Cluster, ghost hosts: seq<(string, string)>)
      requires Valid()
      modifies this
      ensures Valid()
      ensures address !in old(proxies) ==> r == Err(ProxyNotFound) && unchanged(this)
      ensures address in old(proxies) && old(proxies)[address].cluster.None? ==>
                && r == Ok(None) && failed == old(failed) + {address} && failures == old(failures) - {address}
                && clusters == old(clusters) && proxies == old(proxies) && globalEpoch == old(globalEpoch)
      ensures address in old(proxies) && old(proxies)[address].cluster.Some? ==>
                var name, free, host := old(proxies)[address].cluster.value, old(Free()), old(proxies)[address].host;
                && failed == old(failed) + {address} && failures == old(failures)
                && name in old(clusters) && |old(clusters)[name].parts| == 2 * |old(clusters)[name].chunks|
                && AtChunk(old(clusters)[name].chunks, address, c)
                && AfterTakeover(old(clusters)[name], c, address, old(globalEpoch) + 1, mid)
                && SameOwners(old(clusters)[name].parts, mid.parts)
                && SameHalves(old(clusters)[name].chunks, mid.chunks)
                && ListsHosts(old(clusters), hosts)
                && UsableOnly(free, old(proxies), old(failed), old(failures).Keys)
                && (r.Err? <==> NoneUsable(old(proxies), old(failed), old(failures).Keys, hosts, host))
                && ClusterVacated(mid, c, address)
                && (r.Err? ==>
                      && r.error == Error.NoAvailableResource && proxies == old(proxies)
                      && clusters == old(clusters)[name := mid] && globalEpoch == old(globalEpoch) + 1)
                && (r.Ok? ==>
                      && r.value.Some? && r.value.value in free && BestHost(free, hosts, host, free[r.value.value])
                      && (forall x :: x in old(clusters) ==> !InChunks(old(clusters)[x].chunks, r.value.value))
                      && r.value.value in old(proxies)
                      && proxies == Swap(old(proxies), address, r.value.value, name)
                      && globalEpoch == old(globalEpoch) + 2 && c < |mid.chunks|
                      && clusters == old(clusters)[name := Cluster(globalEpoch,
                           mid.chunks[c := WithHalf(mid.chunks[c], address, HalfFor(old(proxies)[r.value.value]))],
                           mid.parts)])
                && (r.Ok? ==>
                      && Usable(old(proxies), old(failed), old(failures).Keys, r.value.value)
                      && ClusterVacated(clusters[name], c, r.value.value)
                      && HostsDecided(free, hosts, host, old(clusters)[name].chunks[c], address,
                                      clusters[name].chunks[c]))
    {
      hide Consistent, Keyed, AllSlotsOk, SlotsInv, SameOwners, Swap, FreeProxies, TakenOver, WithHalf, HalfFor,
           BestHost, NoReplacement, ListsHosts, AfterTakeover, Usable, UsableOnly, NoneUsable, ClusterVacated,
           HostsDecided, OffProxy;
      c, mid, hosts := 0, Cluster(0, [], []), [];
      if address !in proxies {
        return Err(ProxyNotFound), c, mid, hosts;
      }
      if proxies[address].cluster.None? {
        failures := failures - {address};
        failed := failed + {address};
        return Ok(None), c, mid, hosts;
      }
      var name := proxies[address].cluster.value;
      KnownCluster(clusters, proxies, address);
      c := Takeover(name, address);
      mid := clusters[name];
      KnownCluster(clusters, proxies, address);
      failed := failed + {address};
      StillFree(proxies, old(failed), failures.Keys, address);
      assert Free() == old(Free());
      var spare;
      spare, hosts := FindReplacement(name, address);
      FreeMeans(proxies, old(failed), failures.Keys);
      NoneToReplace(proxies, old(failed), failures.Keys, hosts, proxies[address].host);
      if spare.None? {
        SameLinks(old(clusters), name, mid, hosts);
        return Err(Error.NoAvailableResource), c, mid, hosts;
      }
      SpareInNoCluster(old(clusters), proxies, old(failed), failures.Keys, spare.value);
      ghost var at := Replace(name, address, spare.value);
      SameChunk(old(clusters)[name].chunks, mid.chunks, address, c, at);
      SameLinks(old(clusters), name, mid, hosts);
      HalfForProxy(old(proxies), spare.value);
      StillVacated(clusters, proxies, name, c, mid.chunks[c], address, HalfFor(old(proxies)[spare.value]), globalEpoch);
      DecideHosts(old(clusters), old(proxies), old(failed), failures.Keys, hosts, name, mid, c, address, spare.value);
      return Ok(spare), c, mid, hosts;
    }

    /** A commit that may delete the chunks it emptied: it succeeds exactly for a stored
        migration, and after it the chunks without slots go once no migration is left. */
    method CommitAndClear(name: string, ranges: RangeList, tag: Option<nat>, clearFreeNodes: bool)
      returns (r: Result<()>, ghost t: Task, ghost n: nat)
      requires Valid()
      modifies this
      ensures Valid()
      ensures r.Ok? <==>
                && name in old(clusters) && tag.Some?
                && exists u :: u in AllOuts(old(clusters)[name].parts) && u.ranges == ranges &&
                               u.meta.epoch == tag.value
      ensures r.Err? ==>
                && unchanged(this)
                && r.error == (if name !in clusters then ClusterNotFound
                               else if tag.None? then InvalidMigrationTask
                               else MigrationTaskNotFound)
      ensures r.Ok? ==>
                && failed == old(failed) && failures == old(failures) && name in old(clusters)
                && var was := old(clusters)[name];
                   && t in AllOuts(was.parts) && t.ranges == ranges && tag == Some(t.meta.epoch)
                   && t.meta.src < |was.parts| && t.meta.dst < |was.parts| && |was.parts| == 2 * |was.chunks|
                   && var parts := Commit.CommitTask(was.parts, t);
                      && n <= |was.chunks| && |parts| == |was.parts|
                      && (clearFreeNodes && NoEntries(parts) ==>
                            0 < n && FreeFrom(parts, 2 * n) && forall i :: 0 <= i < 2 * n ==> parts[i].stable.Some?)
                      && (!(clearFreeNodes && NoEntries(parts)) ==> n == |was.chunks|)
                      && globalEpoch == old(globalEpoch) + (if n < |was.chunks| then 2 else 1)
                      && clusters == old(clusters)[name := Cluster(globalEpoch, was.chunks[..n], parts[..2 * n])]
                      && proxies == (if n < |was.chunks| then Tagged(old(proxies), was.chunks[n..], None)
                                     else old(proxies))
    {
      hide Consistent, Keyed, AllSlotsOk, NoEntries, FreeFrom, Tagged, Commit.CommitTask, ValidName;
      r, t := CommitMigration(name, ranges, tag);
      n := 0;
      if r.Ok? {
        OneCluster(old(clusters), name, old(globalEpoch));
        CommittedSize(old(clusters)[name].parts, t);
        WholeCluster(clusters[name]);
        n := |clusters[name].chunks|;
        if clearFreeNodes {
          r, n := AutoDeleteFreeNodesIfExists(name);
        }
      }
    }

    /** The guards under which the planners are right: no more masters than slots, and no
        scale-down that starts where the planner would push a full destination twice. */
    ghost predicate Safe(op: Op)
      reads this
    {
      match op
      case CreateCluster(name, nodeNum) => ClusterStarts(name, nodeNum) ==> nodeNum / 2 <= SLOT_NUM
      case ScaleDownCluster(name, nodeNum) =>
        ScaleDownStarts(name, nodeNum) && 0 < nodeNum / 2 < |clusters[name].parts| ==>
          ScaleDownSafe(|clusters[name].parts|, nodeNum / 2)
      case _ => true
    }

    /** A new cluster is created, not refused. */
    ghost predicate ClusterStarts(name: string, nodeNum: nat)
      reads this
    {
      && ValidName(name) && name !in clusters && nodeNum % 4 == 0 && nodeNum > 0
      && exists ps :: UsablePairs(proxies, failed, failures.Keys, ps) && 4 * |ps| == nodeNum
    }

    /** A scale-down is planned, not refused. */
    predicate ScaleDownStarts(name: string, nodeNum: nat)
      reads this
    {
      && ValidName(name) && name in clusters
      && AllHaveSlots(clusters[name].parts) && NoEntries(clusters[name].parts)
      && 0 < nodeNum < 4 * |clusters[name].chunks| && nodeNum % 4 == 0
    }

    /** Asks the allocator whether the cluster would be created. */
    method CheckCluster(name: string, nodeNum: nat) returns (starts: bool)
      ensures starts <==> ClusterStarts(name, nodeNum)
    {
      hide Pairing, UsablePairs, ValidName, FreeProxies;
      starts := ValidName(name) && name !in clusters && nodeNum % 4 == 0 && nodeNum > 0;
      if starts {
        var allocation := FreeChunks(nodeNum / 2);
        starts := allocation.Pairs?;
      }
    }

    /** Decides the guard. */
    method CheckSafe(op: Op) returns (safe: bool)
      ensures safe <==> Safe(op)
    {
      hide Pairing, UsablePairs, ValidName, AllHaveSlots, NoEntries, ScaleDownSafe, FreeProxies, ClusterStarts;
      match op
      case CreateCluster(name, nodeNum) =>
        var starts := CheckCluster(name, nodeNum);
        safe := starts ==> nodeNum / 2 <= SLOT_NUM;
      case ScaleDownCluster(name, nodeNum) =>
        safe := ScaleDownStarts(name, nodeNum) && 0 < nodeNum / 2 < |clusters[name].parts| ==>
                  ScaleDownSafe(|clusters[name].parts|, nodeNum / 2);
      case _ => safe := true;
    }

    method Execute(op: Op)
      requires Valid() && Safe(op)
      modifies this
      ensures Valid()
    {
      hide Consistent, Keyed, AllSlotsOk, SlotsInv, ScaleDownSafe, Started, Partition, Balanced, TakenOver, SameOwners,
           NoEntries, FreeFrom, Tagged, NewChunks, Swap, AllHaveSlots, FreeProxies, Pairing, UsablePairs, AfterTakeover,
           ListsHosts;
      ghost var g, n, task, cl;
      match op
      case CreateProxy(address, node0, node1, host) => var r := AddProxy(address, node0, node1, host);
      case DeleteProxy(address) => var r := RemoveProxy(address);
      case CreateCluster(name, nodeNum) => var r; r, g := AddCluster(name, nodeNum);
      case DeleteCluster(name) => var r := RemoveCluster(name);
      case AddNodes(name, num) => var r; r, g := AutoAddNodes(name, num);
      case DeleteFreeNodes(name) => var r; r, n := AutoDeleteFreeNodes(name);
      case ScaleOutCluster(name) => var r := MigrateSlots(name);
      case ScaleDownCluster(name, nodeNum) => var r := MigrateSlotsToScaleDown(name, nodeNum);
      case CommitTask(name, ranges, tag, clear) => var r; r, task, n := CommitAndClear(name, ranges, tag, clear);
      case Report(address, reporter) => var r := AddFailure(address, reporter);
      case FailOver(address) => var r; r, n, cl, g := ReplaceFailedProxy(address);
      case Balance(name) => var r := BalanceMasters(name);
    }

    /** Over every run of operations whose guards hold, slots stay partitioned, paired
        and balanced in every cluster, and the metadata stays consistent, whether
        operations succeed or fail. */
    method Run(ops: seq<Op>) returns (n: nat)
      requires Valid()
      modifies this
      ensures Valid()
      ensures n <= |ops| && (n < |ops| ==> !Safe(ops[n]))
    {
      n := 0;
      while n < |ops|
        invariant n <= |ops| && Valid()
      {
        var safe := CheckSafe(ops[n]);
        if !safe {
          return;
        }
        Execute(ops[n]);
        n := n + 1;
      }
    }
  }

  // ----- a failover that puts a chunk on one host -----

  lemma ExampleNames()
    ensures Colons("a:1") == Colons("b:1") == Colons("b:2") == 1 && ValidName("c") && 2 <= SLOT_NUM
  {
    assert "a:1"[1..] == ":1" && "b:1"[1..] == ":1" && "b:2"[1..] == ":2" && ":1"[1..] == "1" && ":2"[1..] == "2";
    assert "1"[1..] == "" && "2"[1..] == "";
    assert Colons("1") == 0 && Colons("2") == 0;
    assert Colons(":1") == 1 && Colons(":2") == 1;
  }

  function ExampleProxies(cluster: Option<string>): Proxies {
    map["a:1" := Proxy("a:1", "A", "n1", "n2", cluster), "b:1" := Proxy("b:1", "B", "n3", "n4", cluster)]
  }

  /** Proxy a:1 on host A and proxy b:1 on host B. */
  method TwoProxies() returns (store: MetaStore)
    ensures fresh(store) && store.Valid() && store.clusters == map[] && store.proxies == ExampleProxies(None)
    ensures store.failed == {} && store.failures == map[]
  {
    ExampleNames();
    store := new MetaStore();
    var r0 := store.AddProxy("a:1", "n1", "n2", Some("A"));
    var r1 := store.AddProxy("b:1", "n3", "n4", Some("B"));
  }

  lemma ExampleProxy()
    ensures var proxies := ExampleProxies(Some("c"));
            "b:2" !in proxies && "a:1" in proxies && proxies["a:1"].cluster == Some("c") && proxies["a:1"].host == "A"
  {
  }

  lemma NoFailures(store: MetaStore)
    requires store.failed == {} && store.failures == map[]
    ensures store.failures.Keys == {} && store.Free() == FreeProxies(store.proxies, {}, {})
  {
    assert store.failures.Keys == {};
  }

  /** The chunk of the two proxies, in either order. */
  predicate ExampleChunk(ch: Chunk) {
    if ch.first.proxy == "a:1" then ch.second.host == "B" else ch.second.proxy == "a:1" && ch.first.host == "B"
  }

  lemma ExamplePairs(pairs: seq<(string, string)>)
    ensures UsablePairs(ExampleProxies(None), {}, {}, [("a:1", "b:1")])
    ensures UsablePairs(ExampleProxies(None), {}, {}, pairs) && |pairs| == 1 ==>
              pairs == [("a:1", "b:1")] || pairs == [("b:1", "a:1")]
  {
    if UsablePairs(ExampleProxies(None), {}, {}, pairs) && |pairs| == 1 {
      assert Usable(ExampleProxies(None), {}, {}, pairs[0].0) && Usable(ExampleProxies(None), {}, {}, pairs[0].1);
      assert pairs == [pairs[0]] && pairs[0] == (pairs[0].0, pairs[0].1);
    }
  }

  lemma ExampleTagged(pairs: seq<(string, string)>)
    requires pairs == [("a:1", "b:1")] || pairs == [("b:1", "a:1")]
    ensures var chunks := NewChunks(ExampleProxies(None), pairs);
            && |chunks| == 1 && ExampleChunk(chunks[0])
            && Tagged(ExampleProxies(None), chunks, Some("c")) == ExampleProxies(Some("c"))
  {
    var proxies, chunks := ExampleProxies(None), NewChunks(ExampleProxies(None), pairs);
    assert HalfOf(chunks, 0) == HalfFor(proxies[pairs[0].0]) && HalfOf(chunks, 1) == HalfFor(proxies[pairs[0].1]);
    assert InChunks(chunks, "a:1") && InChunks(chunks, "b:1");
  }

  /** Cluster c of one chunk on the two proxies. */
  method OneChunkCluster() returns (store: MetaStore)
    ensures fresh(store) && store.Valid() && store.failed == {} && store.failures == map[]
    ensures "c" in store.clusters && |store.clusters["c"].chunks| == 1 && ExampleChunk(store.clusters["c"].chunks[0])
    ensures store.proxies == ExampleProxies(Some("c"))
  {
    hide *;
    ExampleNames();
    store := TwoProxies();
    NoFailures(store);
    ExamplePairs([]);
    var r;
    ghost var pairs;
    r, pairs := store.AddCluster("c", 4);
    ExamplePairs(pairs);
    ExampleTagged(pairs);
  }

  lemma ExampleSpare(hosts: seq<(string, string)>)
    ensures var proxies := ExampleProxies(Some("c"))["b:2" := Proxy("b:2", "B", "n5", "n6", None)];
            var free := FreeProxies(proxies, {}, {});
            && !NoneUsable(proxies, {}, {}, hosts, "A") && forall b :: b in free.Values ==> b == "B"
  {
    var proxies := ExampleProxies(Some("c"))["b:2" := Proxy("b:2", "B", "n5", "n6", None)];
    var free := FreeProxies(proxies, {}, {});
    assert Usable(proxies, {}, {}, "b:2") && proxies["b:2"].host == "B";
  }

  /** One chunk on hosts A and B, and a spare proxy on B: the failover of the proxy on A
      puts both halves of the chunk on B. */
  method SharedHostExample() returns (store: MetaStore)
    ensures store.Valid() && "c" in store.clusters && |store.clusters["c"].chunks| == 1
    ensures !Apart(store.clusters["c"].chunks[0])
  {
    hide *;
    ExampleNames();
    store := OneChunkCluster();
    ExampleProxy();
    var r := store.AddProxy("b:2", "n5", "n6", Some("B"));
    NoFailures(store);
    ghost var was, free := store.clusters["c"].chunks, store.Free();
    var spare;
    ghost var c, mid, hosts;
    spare, c, mid, hosts := store.ReplaceFailedProxy("a:1");
    ExampleSpare(hosts);
    SingleChunk(was, mid.chunks, "a:1", c);
    ExampleShared(free, hosts, was[0], store.clusters["c"].chunks[0]);
  }

  lemma SingleChunk(was: seq<Chunk>, mid: seq<Chunk>, address: string, c: nat)
    requires |was| == 1 && SameHalves(was, mid) && AtChunk(was, address, c)
    ensures |mid| == 1 && c == 0
  {
  }

  lemma ExampleShared(free: Free, hosts: seq<(string, string)>, was: Chunk, now: Chunk)
    requires HostsDecided(free, hosts, "A", was, "a:1", now) && ExampleChunk(was)
    requires forall b :: b in free.Values ==> b == "B"
    ensures !Apart(now)
  {
  }

  datatype Op =
    | CreateProxy(address: string, node0: string, node1: string, host: Option<string>)
    | DeleteProxy(address: string)
    | CreateCluster(name: string, nodeNum: nat)
    | DeleteCluster(name: string)
    | AddNodes(name: string, num: nat)
    | DeleteFreeNodes(name: string)
    | ScaleOutCluster(name: string)
    | ScaleDownCluster(name: string, nodeNum: nat)
    | CommitTask(name: string, ranges: RangeList, tag: Option<nat>, clear: bool)
    | Report(address: string, reporter: string)
    | FailOver(address: string)
    | Balance(name: string)

  /** The first chunk with this proxy. */
  predicate AtChunk(chunks: seq<Chunk>, address: string, c: nat) {
    c < |chunks| && HasProxy(chunks[c], address) && forall k :: 0 <= k < c ==> !HasProxy(chunks[k], address)
  }

  /** The cluster after a takeover: as it was if the masters are already off the proxy. */
  ghost predicate AfterTakeover(was: Cluster, c: nat, address: string, epoch: nat, now: Cluster)
    requires c < |was.chunks| && |was.parts| == 2 * |was.chunks|
  {
    if was.chunks[c].role == PeerRole(was.chunks[c], address) then now == was
    else
      && now.epoch == epoch
      && TakenOver(was.chunks, was.parts, c, address, epoch, now.chunks, now.parts)
  }

  lemma SameChunk(a: seq<Chunk>, b: seq<Chunk>, address: string, c: nat, d: nat)
    requires SameHalves(a, b) && AtChunk(a, address, c) && AtChunk(b, address, d)
    ensures c == d
  {
    assert HasProxy(b[c], address) && HasProxy(a[d], address);
  }

  // ----- a chunk and its two hosts -----

  predicate Apart(chunk: Chunk) {
    chunk.first.host != chunk.second.host
  }

  /** The host of the half that does not have this proxy. */
  function PeerHost(chunk: Chunk, address: string): string {
    if chunk.first.proxy == address then chunk.second.host else chunk.first.host
  }

  /** Where a failover leaves the chunk `was`, of which `now` is the result: on two hosts if
      the surviving half's host is not a best one, and on one host if it is the only best one;
      among several best ones the order of a hash map decides. A candidate that shares no
      chunk with the failed host is enough for two hosts. */
  ghost predicate HostsDecided(free: Free, hosts: seq<(string, string)>, failedHost: string, was: Chunk,
                               address: string, now: Chunk)
  {
    var peer := PeerHost(was, address);
    && (!BestHost(free, hosts, failedHost, peer) ==> Apart(now))
    && ((forall b :: b in free.Values && BestHost(free, hosts, failedHost, b) ==> b == peer) ==> !Apart(now))
    && (Apart(now) || !Unshared(free, hosts, failedHost))
  }

  /** Some host with a free proxy has no chunk in common with the failed host. */
  predicate Unshared(free: Free, hosts: seq<(string, string)>, failedHost: string) {
    exists h :: h in free.Values && h != failedHost && Chunks(hosts, failedHost, h) == 0
  }

  lemma {:induction false} PairCounts(list: seq<(string, string)>, k: nat, a: string, b: string)
    requires k < |list| && (list[k] == (a, b) || list[k] == (b, a))
    ensures Chunks(list, a, b) > 0
  {
    if k < |list| - 1 {
      PairCounts(list[..|list| - 1], k, a, b);
    }
  }

  /** The hosts of the two halves of a chunk are linked. */
  lemma PeerIsLinked(clusters: Clusters, hosts: seq<(string, string)>, name: string, c: nat, address: string,
                     failedHost: string)
    requires ListsHosts(clusters, hosts) && name in clusters && c < |clusters[name].chunks|
    requires var ch := clusters[name].chunks[c];
             failedHost == (if ch.first.proxy == address then ch.first.host else ch.second.host)
    ensures Chunks(hosts, failedHost, PeerHost(clusters[name].chunks[c], address)) > 0
  {
    var peer := PeerHost(clusters[name].chunks[c], address);
    PairCounts(HostPairs(clusters[name].chunks), c, failedHost, peer);
    LinkSumRemove(clusters.Keys, clusters, name, failedHost, peer);
  }

  lemma {:induction false} LinkSumAgree(names: set<string>, x: Clusters, y: Clusters, a: string, b: string)
    requires names <= x.Keys && names <= y.Keys
    requires forall k :: k in names ==> HostPairs(x[k].chunks) == HostPairs(y[k].chunks)
    ensures LinkSum(names, x, a, b) == LinkSum(names, y, a, b)
  {
    hide Chunks, HostPairs;
    if names != {} {
      var k :| k in names;
      LinkSumRemove(names, x, k, a, b);
      LinkSumRemove(names, y, k, a, b);
      LinkSumAgree(names - {k}, x, y, a, b);
    }
  }

  /** A takeover changes no host. */
  lemma SameLinks(clusters: Clusters, name: string, mid: Cluster, hosts: seq<(string, string)>)
    requires name in clusters && SameHalves(clusters[name].chunks, mid.chunks)
    requires ListsHosts(clusters[name := mid], hosts)
    ensures ListsHosts(clusters, hosts)
  {
    var now := clusters[name := mid];
    assert HostPairs(clusters[name].chunks) == HostPairs(mid.chunks);
    assert now.Keys == clusters.Keys;
    hide HostPairs, Chunks;
    forall a, b ensures Chunks(hosts, a, b) == LinkSum(clusters.Keys, clusters, a, b) {
      LinkSumAgree(clusters.Keys, clusters, now, a, b);
    }
  }

  /** A best host shares no chunk with the failed one if any candidate does not. */
  lemma BestIsUnshared(free: Free, hosts: seq<(string, string)>, failedHost: string, b: string)
    requires BestHost(free, hosts, failedHost, b) && Unshared(free, hosts, failedHost)
    ensures Chunks(hosts, failedHost, b) == 0
  {
    hide Chunks, FreeOn;
    var h :| h in free.Values && h != failedHost && Chunks(hosts, failedHost, h) == 0;
    assert MayReplace(free, hosts, failedHost, h);
  }

  lemma HostOfHalf(clusters: Clusters, proxies: Proxies, name: string, c: nat, address: string)
    requires Consistent(clusters, proxies) && name in clusters && AtChunk(clusters[name].chunks, address, c)
    ensures address in proxies
    ensures var ch := clusters[name].chunks[c];
            proxies[address].host == (if ch.first.proxy == address then ch.first.host else ch.second.host)
  {
    var chunks := clusters[name].chunks;
    assert ChunksMatch(name, chunks, proxies);
    assert HalfOf(chunks, 2 * c) == chunks[c].first && HalfOf(chunks, 2 * c + 1) == chunks[c].second;
    assert HalfMatches(HalfOf(chunks, 2 * c), name, proxies) && HalfMatches(HalfOf(chunks, 2 * c + 1), name, proxies);
  }

  lemma NewHosts(was: Chunk, mid: Chunk, address: string, p: Proxy)
    requires mid.first == was.first && mid.second == was.second
    ensures Apart(WithHalf(mid, address, HalfFor(p))) <==> p.host != PeerHost(was, address)
  {
  }

  lemma DecideHosts(clusters: Clusters, proxies: Proxies, failed: set<string>, reported: set<string>,
                    hosts: seq<(string, string)>, name: string, mid: Cluster, c: nat, address: string, spare: string)
    requires Consistent(clusters, proxies) && name in clusters && AtChunk(clusters[name].chunks, address, c)
    requires ListsHosts(clusters, hosts) && SameHalves(clusters[name].chunks, mid.chunks)
    requires spare in FreeProxies(proxies, failed, reported) && address in proxies
    requires var free := FreeProxies(proxies, failed, reported);
             BestHost(free, hosts, proxies[address].host, free[spare])
    ensures spare in proxies
    ensures HostsDecided(FreeProxies(proxies, failed, reported), hosts, proxies[address].host,
                         clusters[name].chunks[c], address, WithHalf(mid.chunks[c], address, HalfFor(proxies[spare])))
  {
    var free, host, was := FreeProxies(proxies, failed, reported), proxies[address].host, clusters[name].chunks[c];
    assert free[spare] == proxies[spare].host && free[spare] in free.Values;
    HostOfHalf(clusters, proxies, name, c, address);
    NewHosts(was, mid.chunks[c], address, proxies[spare]);
    hide *;
    PeerIsLinked(clusters, hosts, name, c, address, host);
    Decided(free, hosts, host, was, address, WithHalf(mid.chunks[c], address, HalfFor(proxies[spare])), free[spare]);
  }

  lemma Decided(free: Free, hosts: seq<(string, string)>, failedHost: string, was: Chunk, address: string, now: Chunk,
                chosen: string)
    requires chosen in free.Values && BestHost(free, hosts, failedHost, chosen)
    requires Apart(now) <==> chosen != PeerHost(was, address)
    requires Chunks(hosts, failedHost, PeerHost(was, address)) > 0
    ensures HostsDecided(free, hosts, failedHost, was, address, now)
  {
    hide BestHost, Chunks, Apart, PeerHost, Unshared;
    if Unshared(free, hosts, failedHost) {
      BestIsUnshared(free, hosts, failedHost, chosen);
    }
  }

  /** The map holds the usable proxies and their hosts. */
  ghost predicate UsableOnly(free: Free, proxies: Proxies, failed: set<string>, reported: set<string>) {
    && (forall a :: a in free <==> Usable(proxies, failed, reported, a))
    && (forall a :: a in free ==> free[a] == proxies[a].host)
  }

  lemma FreeMeans(proxies: Proxies, failed: set<string>, reported: set<string>)
    ensures UsableOnly(FreeProxies(proxies, failed, reported), proxies, failed, reported)
  {
    FreeIsUsable(proxies, failed, reported);
  }

  /** Every usable proxy is on the failed host, and no chunk is wholly there. */
  ghost predicate NoneUsable(proxies: Proxies, failed: set<string>, reported: set<string>, hosts: seq<(string, string)>,
                             host: string)
  {
    forall a :: Usable(proxies, failed, reported, a) ==> proxies[a].host == host && Chunks(hosts, host, host) == 0
  }

  lemma NoneToReplace(proxies: Proxies, failed: set<string>, reported: set<string>, hosts: seq<(string, string)>,
                      host: string)
    ensures NoReplacement(FreeProxies(proxies, failed, reported), hosts, host) <==>
            NoneUsable(proxies, failed, reported, hosts, host)
  {
    var free := FreeProxies(proxies, failed, reported);
    FreeIsUsable(proxies, failed, reported);
    if NoReplacement(free, hosts, host) {
      hide Chunks;
      forall a | Usable(proxies, failed, reported, a)
        ensures proxies[a].host == host && Chunks(hosts, host, host) == 0
      {
        assert free[a] in free.Values && !MayReplace(free, hosts, host, free[a]);
      }
    }
  }

  // ----- no master stays on a failed proxy -----

  /** Chunk `c` has no master and no slots on this proxy. */
  ghost predicate ClusterVacated(cl: Cluster, c: nat, proxy: string) {
    |cl.parts| == 2 * |cl.chunks| && Sited(cl.parts) && c < |cl.chunks| && Vacated(cl.chunks, cl.parts, c, proxy)
  }

  lemma VacatedCluster(cl: Cluster, c: nat, proxy: string, epoch: nat)
    requires |cl.parts| == 2 * |cl.chunks| && SlotsInv(cl.parts, epoch) && c < |cl.chunks|
    requires OffProxy(cl.chunks[c], proxy)
    ensures ClusterVacated(cl, c, proxy)
  {
    hide OffProxy, Vacated, Sited, GoodParts;
    GoodSited(cl.parts, epoch);
    OffIsVacated(cl.chunks, cl.parts, c, proxy);
  }

  lemma OffSwapped(chunk: Chunk, address: string, half: Half)
    requires HasProxy(chunk, address) && OffProxy(chunk, address)
    requires var now := WithHalf(chunk, address, half); now.first.proxy != now.second.proxy
    ensures OffProxy(WithHalf(chunk, address, half), half.proxy)
  {
    var now := WithHalf(chunk, address, half);
    forall i | 0 <= i < 4 && ProxyAddress(now, i / 2) == half.proxy ensures !IsMaster(now.role, i) {
      assert ProxyAddress(chunk, i / 2) == address;
    }
  }

  lemma HalfForProxy(proxies: Proxies, a: string)
    requires Keyed(proxies) && a in proxies
    ensures HalfFor(proxies[a]).proxy == a
  {
  }

  /** The proxy in the failed one's place has no masters either. */
  lemma StillVacated(clusters: Clusters, proxies: Proxies, name: string, c: nat, was: Chunk, address: string,
                     half: Half, epoch: nat)
    requires Consistent(clusters, proxies) && AllSlotsOk(clusters, epoch) && name in clusters
    requires c < |clusters[name].chunks| && clusters[name].chunks[c] == WithHalf(was, address, half)
    requires HasProxy(was, address) && OffProxy(was, address)
    ensures ClusterVacated(clusters[name], c, half.proxy)
  {
    hide Consistent, AllSlotsOk, SlotsInv, OffProxy, ClusterVacated, WithHalf;
    OneCluster(clusters, name, epoch);
    TwoProxiesOf(clusters, proxies, name, c);
    OffSwapped(was, address, half);
    VacatedCluster(clusters[name], c, half.proxy, epoch);
  }

  lemma TwoProxiesOf(clusters: Clusters, proxies: Proxies, name: string, c: nat)
    requires Consistent(clusters, proxies) && name in clusters && c < |clusters[name].chunks|
    ensures clusters[name].chunks[c].first.proxy != clusters[name].chunks[c].second.proxy
  {
    var chunks := clusters[name].chunks;
    assert ChunksMatch(name, chunks, proxies);
    assert HalfOf(chunks, 2 * c) == chunks[c].first && HalfOf(chunks, 2 * c + 1) == chunks[c].second;
  }

  lemma CommittedSize(parts: seq<Part>, t: Task)
    requires t.meta.src < |parts| && t.meta.dst < |parts|
    ensures |Commit.CommitTask(parts, t)| == |parts|
  {
  }

  lemma WholeCluster(cl: Cluster)
    requires |cl.parts| == 2 * |cl.chunks|
    ensures cl.chunks[..|cl.chunks|] == cl.chunks && cl.parts[..2 * |cl.chunks|] == cl.parts
  {
  }

  lemma FoundInChunks(chunks: seq<Chunk>, address: string, c: nat)
    requires InChunks(chunks, address) && c <= |chunks|
    requires forall k :: 0 <= k < c ==> !HasProxy(chunks[k], address)
    ensures c < |chunks|
  {
    var h :| 0 <= h < 2 * |chunks| && HalfOf(chunks, h).proxy == address;
    assert HasProxy(chunks[h / 2], address);
  }

  lemma OwnersStay(parts: seq<Part>)
    ensures SameOwners(parts, parts)
  {
  }

  lemma TakenOverHalves(chunks0: seq<Chunk>, parts0: seq<Part>, c: nat, address: string, epoch: nat,
                        chunks: seq<Chunk>, parts: seq<Part>)
    requires c < |chunks0| && |parts0| == 2 * |chunks0|
    requires TakenOver(chunks0, parts0, c, address, epoch, chunks, parts)
    ensures SameHalves(chunks0, chunks) && |parts| == |parts0|
  {
  }

  lemma KnownCluster(clusters: Clusters, proxies: Proxies, address: string)
    requires Consistent(clusters, proxies) && address in proxies && proxies[address].cluster.Some?
    ensures proxies[address].cluster.value in clusters
    ensures InChunks(clusters[proxies[address].cluster.value].chunks, address)
  {
    assert Placed(address, clusters, proxies);
  }

  lemma FreeInNoCluster(clusters: Clusters, proxies: Proxies, a: string)
    requires Consistent(clusters, proxies) && a in proxies && proxies[a].cluster.None?
    ensures forall x :: x in clusters ==> !InChunks(clusters[x].chunks, a)
  {
    forall x | x in clusters ensures !InChunks(clusters[x].chunks, a) {
      assert ChunksMatch(x, clusters[x].chunks, proxies);
      forall h | 0 <= h < 2 * |clusters[x].chunks| ensures HalfOf(clusters[x].chunks, h).proxy != a {
        assert HalfMatches(HalfOf(clusters[x].chunks, h), x, proxies);
      }
    }
  }

  lemma SpareInNoCluster(clusters: Clusters, proxies: Proxies, failed: set<string>, reported: set<string>, a: string)
    requires Consistent(clusters, proxies) && a in FreeProxies(proxies, failed, reported)
    ensures a in proxies && proxies[a].cluster.None?
    ensures forall x :: x in clusters ==> !InChunks(clusters[x].chunks, a)
  {
    FreeInNoCluster(clusters, proxies, a);
  }

  /** Marking an occupied proxy as failed frees or takes nothing. */
  lemma StillFree(proxies: Proxies, failed: set<string>, reported: set<string>, address: string)
    requires address in proxies && proxies[address].cluster.Some?
    ensures FreeProxies(proxies, failed + {address}, reported) == FreeProxies(proxies, failed, reported)
  {
  }

  /** The failed proxy's host has a chunk, so the link table knows it. */
  lemma HostLinked(clusters: Clusters, proxies: Proxies, name: string, address: string)
    requires Consistent(clusters, proxies) && name in clusters && InChunks(clusters[name].chunks, address)
    ensures address in proxies && proxies[address].host in Hosts(proxies)
    ensures exists c :: 0 <= c < |clusters[name].chunks| &&
              (clusters[name].chunks[c].first.host == proxies[address].host ||
               clusters[name].chunks[c].second.host == proxies[address].host)
  {
    var chunks := clusters[name].chunks;
    assert ChunksMatch(name, chunks, proxies);
    var h :| 0 <= h < 2 * |chunks| && HalfOf(chunks, h).proxy == address;
    assert HalfMatches(HalfOf(chunks, h), name, proxies);
    assert HalfOf(chunks, h) == chunks[h / 2].first || HalfOf(chunks, h) == chunks[h / 2].second;
  }

  lemma SwapProxy(clusters: Clusters, proxies: Proxies, name: string, c: nat, address: string, spare: string,
                  epoch: nat)
    requires Consistent(clusters, proxies) && Keyed(proxies) && AllSlotsOk(clusters, epoch) && name in clusters
    requires c < |clusters[name].chunks| && HasProxy(clusters[name].chunks[c], address)
    requires spare in proxies && proxies[spare].cluster.None?
    ensures address in proxies
    ensures var was := clusters[name];
            var chunks := was.chunks[c := WithHalf(was.chunks[c], address, HalfFor(proxies[spare]))];
            var clusters', proxies' :=
              clusters[name := Cluster(epoch, chunks, was.parts)], Swap(proxies, address, spare, name);
            Consistent(clusters', proxies') && Keyed(proxies') && AllSlotsOk(clusters', epoch)
  {
    var was := clusters[name];
    assert ChunksMatch(name, was.chunks, proxies) && ClusterOk(was, epoch);
    ReplaceProxy(proxies, name, was.chunks, c, address, spare);
    var chunks := was.chunks[c := WithHalf(was.chunks[c], address, HalfFor(proxies[spare]))];
    var cl := Cluster(epoch, chunks, was.parts);
    assert Keyed(Swap(proxies, address, spare, name));
    hide *;
    ChunksSet(clusters, name, cl);
    SetChunks(clusters, proxies, name, clusters[name := cl], Swap(proxies, address, spare, name));
    NewClusterSlots(clusters, name, cl, epoch, epoch);
  }

  method ShrinkTo(was: seq<Part>, nodeNum: nat, epoch: nat) returns (parts: seq<Part>)
    requires SlotsInv(was, epoch) && NoEntries(was) && !HasEmptyPart(was)
    requires 0 < nodeNum < 2 * |was| && nodeNum % 4 == 0
    ensures 0 < nodeNum / 2 < |was| <= SLOT_NUM && |parts| == |was|
    ensures ScaleDownSafe(|was|, nodeNum / 2) ==> SlotsInv(parts, epoch) && Started(was, parts, epoch, nodeNum / 2)
    ensures !ScaleDownSafe(|was|, nodeNum / 2) ==> !Partition(parts)
  {
    hide SlotsInv, NoEntries, Started, ScaleDownSafe, Partition;
    var chunkNum := nodeNum / 4;
    assert 2 * chunkNum == nodeNum / 2;
    parts := ScaleDown.PlanScaleDown(was, 2 * chunkNum, epoch, epoch);
  }

  lemma StartedSize(was: seq<Part>, parts: seq<Part>, epoch: nat, target: nat)
    requires Started(was, parts, epoch, target)
    ensures |parts| == |was|
  {
  }

  lemma NewRoles(clusters: Clusters, proxies: Proxies, name: string, chunks: seq<Chunk>, parts: seq<Part>, epoch: nat)
    requires Consistent(clusters, proxies) && AllSlotsOk(clusters, epoch) && name in clusters
    requires SameHalves(clusters[name].chunks, chunks) && |parts| == |clusters[name].parts|
    ensures Consistent(clusters[name := Cluster(epoch, chunks, parts)], proxies)
    ensures parts == clusters[name].parts || SlotsInv(parts, epoch) ==>
              AllSlotsOk(clusters[name := Cluster(epoch, chunks, parts)], epoch)
  {
    var cl := Cluster(epoch, chunks, parts);
    assert ChunksMatch(name, clusters[name].chunks, proxies) && ClusterOk(clusters[name], epoch);
    RolesChange(proxies, name, clusters[name].chunks, chunks);
    hide *;
    ChunksSet(clusters, name, cl);
    SetChunks(clusters, proxies, name, clusters[name := cl], proxies);
    NewClusterSlots(clusters, name, cl, epoch, epoch);
  }

  lemma NewSlots(clusters: Clusters, proxies: Proxies, name: string, parts: seq<Part>, epoch: nat)
    requires Consistent(clusters, proxies) && AllSlotsOk(clusters, epoch) && name in clusters
    requires |parts| == |clusters[name].parts|
    ensures var clusters' := clusters[name := Cluster(epoch, clusters[name].chunks, parts)];
            && Consistent(clusters', proxies)
            && (SlotsInv(parts, epoch) ==> AllSlotsOk(clusters', epoch))
  {
    NewRoles(clusters, proxies, name, clusters[name].chunks, parts, epoch);
  }

  lemma OneCluster(clusters: Clusters, name: string, epoch: nat)
    requires AllSlotsOk(clusters, epoch) && name in clusters
    ensures |clusters[name].parts| == 2 * |clusters[name].chunks| && SlotsInv(clusters[name].parts, epoch)
  {
    assert ClusterOk(clusters[name], epoch);
  }

  lemma DropCluster(clusters: Clusters, proxies: Proxies, name: string, epoch: nat)
    requires Consistent(clusters, proxies) && Keyed(proxies) && AllSlotsOk(clusters, epoch) && name in clusters
    ensures var proxies' := Tagged(proxies, clusters[name].chunks, None);
            Consistent(clusters - {name}, proxies') && Keyed(proxies') && AllSlotsOk(clusters - {name}, epoch + 1)
  {
    var chunks := clusters[name].chunks;
    assert ChunksMatch(name, chunks, proxies);
    assert chunks[..0] == [] && chunks[0..] == chunks;
    DropChunks(proxies, name, chunks, 0);
    TagKeyed(proxies, chunks, None);
    SetChunks(clusters, proxies, name, clusters - {name}, Tagged(proxies, chunks, None));
    AllLater(clusters, epoch, epoch + 1);
  }

  /** A cluster with new empty chunks at the end. */
  function Grown(cl: Cluster, proxies: Proxies, pairs: seq<(string, string)>, epoch: nat): Cluster
    requires forall i :: 0 <= i < |pairs| ==> pairs[i].0 in proxies && pairs[i].1 in proxies
  {
    Cluster(epoch, cl.chunks + NewChunks(proxies, pairs), cl.parts + FreeParts(2 * |pairs|))
  }

  /** From index `k` on, the chunks are one per pair, with their masters on both halves. */
  ghost predicate NewFrom(chunks: seq<Chunk>, k: nat, proxies: Proxies, pairs: seq<(string, string)>) {
    && |chunks| == k + |pairs|
    && forall i :: 0 <= i < |pairs| ==>
         && chunks[k + i].role == Normal
         && HalfMade(chunks[k + i].first, proxies, pairs[i].0) && HalfMade(chunks[k + i].second, proxies, pairs[i].1)
  }

  predicate HalfMade(half: Half, proxies: Proxies, a: string) {
    && a in proxies && half.proxy == proxies[a].address && half.host == proxies[a].host
    && half.node0 == proxies[a].node0 && half.node1 == proxies[a].node1
  }

  lemma NewlyMade(proxies: Proxies, pairs: seq<(string, string)>, before: seq<Chunk>)
    requires forall i :: 0 <= i < |pairs| ==> pairs[i].0 in proxies && pairs[i].1 in proxies
    ensures NewFrom(NewChunks(proxies, pairs), 0, proxies, pairs)
    ensures NewFrom(before + NewChunks(proxies, pairs), |before|, proxies, pairs)
  {
  }

  /** New chunks without slots at the end, everything else as it was. */
  ghost predicate GrownBy(was: Cluster, now: Cluster, proxies: Proxies, pairs: seq<(string, string)>) {
    && was.chunks <= now.chunks && NewFrom(now.chunks, |was.chunks|, proxies, pairs)
    && was.parts <= now.parts && |now.parts| == |was.parts| + 2 * |pairs|
    && forall i :: |was.parts| <= i < |now.parts| ==> now.parts[i].stable.None? && now.parts[i].entries == []
  }

  lemma GrownMeans(cl: Cluster, proxies: Proxies, pairs: seq<(string, string)>, epoch: nat)
    requires forall i :: 0 <= i < |pairs| ==> pairs[i].0 in proxies && pairs[i].1 in proxies
    ensures GrownBy(cl, Grown(cl, proxies, pairs, epoch), proxies, pairs)
  {
    NewlyMade(proxies, pairs, cl.chunks);
    hide NewFrom, NewChunks;
  }

  lemma GrowCluster(clusters: Clusters, proxies: Proxies, failed: set<string>, reported: set<string>, name: string,
                    pairs: seq<(string, string)>, epoch: nat, epoch': nat)
    requires Consistent(clusters, proxies) && Keyed(proxies) && AllSlotsOk(clusters, epoch) && name in clusters
    requires Pairing(FreeProxies(proxies, failed, reported), pairs) && epoch <= epoch'
    ensures forall i :: 0 <= i < |pairs| ==> pairs[i].0 in proxies && pairs[i].1 in proxies
    ensures var cl := Grown(clusters[name], proxies, pairs, epoch');
            var clusters', proxies' := clusters[name := cl], Tagged(proxies, cl.chunks, Some(name));
            && Consistent(clusters', proxies') && Keyed(proxies') && AllSlotsOk(clusters', epoch')
            && |cl.parts| == 2 * |cl.chunks| && Sited(cl.parts)
  {
    var free := FreeProxies(proxies, failed, reported);
    PairsKnown(proxies, failed, reported, pairs);
    var was, cl := clusters[name], Grown(clusters[name], proxies, pairs, epoch');
    assert ChunksMatch(name, was.chunks, proxies) && ClusterOk(was, epoch);
    assert cl.chunks == was.chunks + NewChunks(proxies, pairs);
    hide *;
    GrownSlots(was, proxies, pairs, epoch, epoch');
    AppendChunks(proxies, name, was.chunks, free, pairs);
    TagKeyed(proxies, cl.chunks, Some(name));
    ChunksSet(clusters, name, cl);
    SetChunks(clusters, proxies, name, clusters[name := cl], Tagged(proxies, cl.chunks, Some(name)));
    AllSet(clusters, name, cl, epoch, epoch');
  }

  lemma GrownSlots(was: Cluster, proxies: Proxies, pairs: seq<(string, string)>, epoch: nat, epoch': nat)
    requires forall i :: 0 <= i < |pairs| ==> pairs[i].0 in proxies && pairs[i].1 in proxies
    requires ClusterOk(was, epoch) && epoch <= epoch'
    ensures var cl := Grown(was, proxies, pairs, epoch');
            ClusterOk(cl, epoch') && |cl.parts| == 2 * |cl.chunks| && Sited(cl.parts)
  {
    hide SlotsInv, NewChunks, FreeParts, Sited;
    var parts := was.parts + FreeParts(2 * |pairs|);
    AddFree(was.parts, 2 * |pairs|, epoch);
    LaterEpoch(parts, epoch, epoch');
    SlotsSited(parts, epoch');
  }

  lemma SlotsSited(parts: seq<Part>, epoch: nat)
    requires SlotsInv(parts, epoch)
    ensures Sited(parts)
  {
    GoodSited(parts, epoch);
  }

  function KeepFirst(cl: Cluster, n: nat, epoch: nat): Cluster
    requires n <= |cl.chunks| && |cl.parts| == 2 * |cl.chunks|
  {
    Cluster(epoch, cl.chunks[..n], cl.parts[..2 * n])
  }

  lemma ShrinkCluster(clusters: Clusters, proxies: Proxies, name: string, n: nat, epoch: nat, epoch': nat)
    requires Consistent(clusters, proxies) && Keyed(proxies) && AllSlotsOk(clusters, epoch) && name in clusters
    requires n <= |clusters[name].chunks| && |clusters[name].parts| == 2 * |clusters[name].chunks| && epoch <= epoch'
    requires SlotsInv(clusters[name].parts[..2 * n], epoch)
    ensures var was := clusters[name];
            var clusters' := clusters[name := KeepFirst(was, n, epoch')];
            var proxies' := Tagged(proxies, was.chunks[n..], None);
            Consistent(clusters', proxies') && Keyed(proxies') && AllSlotsOk(clusters', epoch')
  {
    var was := clusters[name];
    var cl := KeepFirst(was, n, epoch');
    assert ChunksMatch(name, was.chunks, proxies);
    DropChunks(proxies, name, was.chunks, n);
    TagKeyed(proxies, was.chunks[n..], None);
    LaterEpoch(cl.parts, epoch, epoch');
    hide *;
    ChunksSet(clusters, name, cl);
    SetChunks(clusters, proxies, name, clusters[name := cl], Tagged(proxies, was.chunks[n..], None));
    NewClusterSlots(clusters, name, cl, epoch, epoch');
  }

  lemma PairsKnown(proxies: Proxies, failed: set<string>, reported: set<string>, pairs: seq<(string, string)>)
    requires Pairing(FreeProxies(proxies, failed, reported), pairs)
    ensures AllFree(proxies, FreeProxies(proxies, failed, reported))
    ensures forall i :: 0 <= i < |pairs| ==> pairs[i].0 in proxies && pairs[i].1 in proxies
  {
    var free := FreeProxies(proxies, failed, reported);
    forall i | 0 <= i < |pairs| ensures pairs[i].0 in proxies && pairs[i].1 in proxies {
      assert CrossHost(free, pairs[i]);
    }
  }

  lemma NoChunks(name: string, proxies: Proxies)
    ensures ChunksMatch(name, [], proxies)
  {
  }

  lemma NewClusterMeta(clusters: Clusters, proxies: Proxies, free: Free, name: string,
                       pairs: seq<(string, string)>, cl: Cluster)
    requires Consistent(clusters, proxies) && Keyed(proxies) && name !in clusters
    requires AllFree(proxies, free) && Pairing(free, pairs)
    requires forall i :: 0 <= i < |pairs| ==> pairs[i].0 in proxies && pairs[i].1 in proxies
    requires cl.chunks == NewChunks(proxies, pairs)
    ensures Keyed(Tagged(proxies, cl.chunks, Some(name)))
    ensures Consistent(clusters[name := cl], Tagged(proxies, cl.chunks, Some(name)))
  {
    hide *;
    NoChunks(name, proxies);
    AppendChunks(proxies, name, [], free, pairs);
    assert [] + cl.chunks == cl.chunks;
    TagKeyed(proxies, cl.chunks, Some(name));
    ChunksSet(clusters, name, cl);
    SetChunks(clusters, proxies, name, clusters[name := cl], Tagged(proxies, cl.chunks, Some(name)));
  }

  lemma ChunksSet(clusters: Clusters, name: string, cl: Cluster)
    ensures ChunksOf(clusters[name := cl], name) == cl.chunks
    ensures name !in clusters ==> ChunksOf(clusters, name) == []
    ensures name in clusters ==> ChunksOf(clusters, name) == clusters[name].chunks
  {
  }

  lemma NewClusterSlots(clusters: Clusters, name: string, cl: Cluster, epoch: nat, epoch': nat)
    requires AllSlotsOk(clusters, epoch) && epoch <= epoch' && cl.epoch <= epoch'
    requires |cl.parts| == 2 * |cl.chunks|
    ensures SlotsInv(cl.parts, epoch') ==> AllSlotsOk(clusters[name := cl], epoch')
  {
    if SlotsInv(cl.parts, epoch') {
      AllSet(clusters, name, cl, epoch, epoch');
    }
  }
}

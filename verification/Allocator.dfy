/** Pairing free proxies of different hosts into chunks (src/broker/update.rs,
    generate_free_chunks, remove_redundant_chunks and allocate_chunk). */
module Allocator {
  import opened ClusterState

  /** Free proxies and their hosts. */
  type Free = map<string, string>

  type HostProxies = map<string, seq<string>>

  /** How many chunks link two hosts. */
  type Links = map<string, map<string, nat>>

  datatype Allocation = Pairs(pairs: seq<(string, string)>) | NoAvailableResource | ResourceNotBalance

  // ----- what is asked for -----

  /** All 2n proxies of the pairs are different. */
  predicate Separate(pairs: seq<(string, string)>) {
    && (forall i, j :: 0 <= i < j < |pairs| ==> pairs[i].0 != pairs[j].0 && pairs[i].1 != pairs[j].1)
    && (forall i, j :: 0 <= i < |pairs| && 0 <= j < |pairs| ==> pairs[i].0 != pairs[j].1)
  }

  predicate CrossHost(free: Free, p: (string, string)) {
    p.0 in free && p.1 in free && free[p.0] != free[p.1]
  }

  /** Disjoint pairs of free proxies on different hosts. */
  predicate Pairing(free: Free, pairs: seq<(string, string)>) {
    Separate(pairs) && forall i :: 0 <= i < |pairs| ==> CrossHost(free, pairs[i])
  }

  // ----- counting proxies per host -----

  ghost function Total(keys: set<string>, hp: HostProxies): nat
    requires keys <= hp.Keys
  {
    if keys == {} then 0
    else
      var k :| k in keys;
      |hp[k]| + Total(keys - {k}, hp)
  }

  lemma {:induction false} TotalRemove(keys: set<string>, hp: HostProxies, k: string)
    requires keys <= hp.Keys && k in keys
    ensures Total(keys, hp) == |hp[k]| + Total(keys - {k}, hp)
  {
    var k0 :| k0 in keys && Total(keys, hp) == |hp[k0]| + Total(keys - {k0}, hp);
    if k != k0 {
      TotalRemove(keys - {k0}, hp, k);
      TotalRemove(keys - {k}, hp, k0);
      assert keys - {k0} - {k} == keys - {k} - {k0};
    }
  }

  lemma {:induction false} TotalAgree(keys: set<string>, a: HostProxies, b: HostProxies)
    requires keys <= a.Keys && keys <= b.Keys && forall k :: k in keys ==> |a[k]| == |b[k]|
    ensures Total(keys, a) == Total(keys, b)
  {
    if keys != {} {
      var k :| k in keys;
      TotalRemove(keys, a, k);
      TotalRemove(keys, b, k);
      TotalAgree(keys - {k}, a, b);
    }
  }

  lemma {:induction false} TotalZero(keys: set<string>, hp: HostProxies)
    requires keys <= hp.Keys
    ensures Total(keys, hp) == 0 <==> forall k :: k in keys ==> hp[k] == []
  {
    if keys != {} {
      var k :| k in keys;
      TotalRemove(keys, hp, k);
      TotalZero(keys - {k}, hp);
    }
  }

  lemma TotalUpdate(hp: HostProxies, h: string, list: seq<string>)
    ensures Total(hp[h := list].Keys, hp[h := list]) + (if h in hp then |hp[h]| else 0) ==
            Total(hp.Keys, hp) + |list|
  {
    var hp' := hp[h := list];
    TotalRemove(hp'.Keys, hp', h);
    assert hp'.Keys - {h} == hp.Keys - {h};
    TotalAgree(hp.Keys - {h}, hp, hp');
    if h in hp {
      TotalRemove(hp.Keys, hp, h);
    } else {
      assert hp.Keys - {h} == hp.Keys;
    }
  }

  predicate Distinct(list: seq<string>) {
    forall i, j :: 0 <= i < j < |list| ==> list[i] != list[j]
  }

  /** The lists hold free proxies of their host, each once. */
  predicate Held(free: Free, hp: HostProxies) {
    forall h :: h in hp ==> Distinct(hp[h]) && forall a :: a in hp[h] ==> a in free && free[a] == h
  }

  predicate Listed(free: Free, seen: set<string>, hp: HostProxies) {
    forall a :: a in seen ==> a in free && free[a] in hp && a in hp[free[a]]
  }

  /** The lists hold exactly these free proxies. */
  ghost predicate Grouped(free: Free, seen: set<string>, hp: HostProxies) {
    && Held(free, hp)
    && (forall h, a :: h in hp && a in hp[h] ==> a in seen)
    && Listed(free, seen, hp)
    && (forall h :: h in hp ==> hp[h] != [])
    && Total(hp.Keys, hp) == |seen|
  }

  function Push(hp: HostProxies, h: string, a: string): HostProxies {
    hp[h := (if h in hp then hp[h] else []) + [a]]
  }

  method GroupByHost(free: Free) returns (hp: HostProxies)
    ensures Grouped(free, free.Keys, hp)
  {
    hide *;
    hp := map[];
    GroupNone(free);
    var rest := free.Keys;
    ghost var seen: set<string> := {};
    while rest != {}
      invariant seen !! rest && seen + rest == free.Keys && Grouped(free, seen, hp)
      decreases rest
    {
      var a :| a in rest;
      GroupOne(free, seen, hp, a);
      hp, rest, seen := Push(hp, free[a], a), rest - {a}, seen + {a};
    }
  }

  lemma HeldOne(free: Free, seen: set<string>, hp: HostProxies, a: string)
    requires Held(free, hp) && a in free && a !in seen
    requires forall h, x :: h in hp && x in hp[h] ==> x in seen
    ensures Held(free, Push(hp, free[a], a))
    ensures forall h, x :: h in Push(hp, free[a], a) && x in Push(hp, free[a], a)[h] ==> x in seen + {a}
  {
    var list := if free[a] in hp then hp[free[a]] else [];
    assert forall x :: x in list + [a] ==> x == a || x in list;
    assert Distinct(list);
    assert Distinct(list + [a]) by {
      assert forall i :: 0 <= i < |list| ==> list[i] in list;
    }
  }

  lemma ListedOne(free: Free, seen: set<string>, hp: HostProxies, a: string)
    requires Listed(free, seen, hp) && a in free
    ensures Listed(free, seen + {a}, Push(hp, free[a], a))
  {
    forall x | x in seen + {a}
      ensures x in free && free[x] in Push(hp, free[a], a) && x in Push(hp, free[a], a)[free[x]]
    {
      assert x != a ==> x in hp[free[x]];
    }
  }

  lemma PushOne(hp: HostProxies, h: string, a: string)
    ensures Total(Push(hp, h, a).Keys, Push(hp, h, a)) == Total(hp.Keys, hp) + 1
    ensures (forall k :: k in hp ==> hp[k] != []) ==> forall k :: k in Push(hp, h, a) ==> Push(hp, h, a)[k] != []
  {
    TotalUpdate(hp, h, (if h in hp then hp[h] else []) + [a]);
  }

  lemma GroupNone(free: Free)
    ensures Grouped(free, {}, map[])
  {
  }

  lemma GroupOne(free: Free, seen: set<string>, hp: HostProxies, a: string)
    requires Grouped(free, seen, hp) && a in free && a !in seen
    ensures Grouped(free, seen + {a}, Push(hp, free[a], a))
  {
    hide Held, Listed, Total, Push;
    HeldOne(free, seen, hp, a);
    ListedOne(free, seen, hp, a);
    PushOne(hp, free[a], a);
  }

  /** The size of the largest list. */
  ghost predicate IsMax(hp: HostProxies, m: nat) {
    && (forall h :: h in hp ==> |hp[h]| <= m)
    && (m > 0 ==> exists h :: h in hp && |hp[h]| == m)
  }

  method Measure(hp: HostProxies) returns (sum: nat, max: nat)
    ensures sum == Total(hp.Keys, hp) && IsMax(hp, max)
  {
    sum, max := 0, 0;
    var rest := hp.Keys;
    while rest != {}
      invariant rest <= hp.Keys && sum + Total(rest, hp) == Total(hp.Keys, hp)
      invariant forall h :: h in hp && h !in rest ==> |hp[h]| <= max
      invariant max > 0 ==> exists h :: h in hp && |hp[h]| == max
      decreases rest
    {
      var h :| h in rest;
      TotalRemove(rest, hp, h);
      sum := sum + |hp[h]|;
      if |hp[h]| > max {
        max := |hp[h]|;
      }
      rest := rest - {h};
    }
  }

  // ----- trimming the largest host -----

  lemma TotalMember(keys: set<string>, hp: HostProxies, k: string)
    requires keys <= hp.Keys && k in keys
    ensures |hp[k]| <= Total(keys, hp)
  {
    TotalRemove(keys, hp, k);
  }

  lemma HeldPrefix(free: Free, hp: HostProxies, h: string, n: nat)
    requires Held(free, hp) && h in hp && n <= |hp[h]|
    ensures Held(free, hp[h := hp[h][..n]])
  {
    forall a | a in hp[h][..n] ensures a in free && free[a] == h {
      assert a in hp[h];
    }
    assert Distinct(hp[h]);
    assert Distinct(hp[h][..n]);
  }

  /** No host has more than half of the proxies. */
  ghost predicate Even(hp: HostProxies) {
    forall h :: h in hp ==> 2 * |hp[h]| <= Total(hp.Keys, hp)
  }

  /** Enough proxies for `expected`, when each pair needs two hosts. */
  predicate Suffices(sum: nat, max: nat, expected: nat) {
    expected <= sum && expected + 2 * max <= 2 * sum
  }

  lemma TrimmedEven(hp: HostProxies, h: string, list: seq<string>, max: nat)
    requires IsMax(hp, max) && h in hp && |hp[h]| == max
    requires var rest := Total(hp.Keys, hp) - max; |list| == if max <= rest then max else rest
    ensures Even(hp[h := list])
    ensures Total(hp[h := list].Keys, hp[h := list]) == Total(hp.Keys, hp) - max + |list|
  {
    var hp' := hp[h := list];
    TotalUpdate(hp, h, list);
    TotalRemove(hp.Keys, hp, h);
    forall k | k in hp' ensures 2 * |hp'[k]| <= Total(hp'.Keys, hp') {
      if k != h {
        TotalMember(hp.Keys - {h}, hp, k);
      }
    }
  }

  /** Of a host with more than half of all proxies, as many count as the others have. */
  function AtMostHalf(size: nat, total: nat): nat {
    if 2 * size > total && size <= total then total - size else size
  }

  method RemoveRedundant(hp0: HostProxies, expected: nat, ghost free: Free)
    returns (hp: Option<HostProxies>, ghost max0: nat)
    requires Held(free, hp0)
    ensures IsMax(hp0, max0) && (hp.Some? <==> Suffices(Total(hp0.Keys, hp0), max0, expected))
    ensures hp.Some? ==>
              && Held(free, hp.value) && hp.value.Keys == hp0.Keys
              && Even(hp.value) && expected <= Total(hp.value.Keys, hp.value)
              && forall h :: h in hp0 ==> |hp.value[h]| == AtMostHalf(|hp0[h]|, Total(hp0.Keys, hp0))
  {
    var sum, max := Measure(hp0);
    ghost var sum0 := sum;
    max0 := max;
    var trimmed := hp0;
    if hp0.Keys != {} {
      TotalZero(hp0.Keys, hp0);
      var h :| h in hp0 && |hp0[h]| == max;
      var list := hp0[h];
      TotalMember(hp0.Keys, hp0, h);
      while max * 2 > sum
        invariant 0 <= max <= max0 && sum == sum0 - max0 + max && list == hp0[h][..max]
        invariant max == max0 || sum0 - max0 <= max < max0
      {
        list := list[..|list| - 1];
        sum, max := sum - 1, max - 1;
      }
      trimmed := hp0[h := list];
      HeldPrefix(free, hp0, h, max);
      TrimmedEven(hp0, h, list, max0);
    } else {
      assert sum == 0;
    }
    if sum < expected {
      return None, max0;
    }
    return Some(trimmed), max0;
  }

  // ----- taking pairs -----

  /** `left` more pairs can be taken. */
  ghost predicate Room(hp: HostProxies, left: nat) {
    2 * left <= Total(hp.Keys, hp) && forall h :: h in hp ==> left + |hp[h]| <= Total(hp.Keys, hp)
  }

  lemma EvenHasRoom(hp: HostProxies, pairs: nat)
    requires Even(hp) && 2 * pairs <= Total(hp.Keys, hp)
    ensures Room(hp, pairs)
  {
    forall h | h in hp ensures pairs + |hp[h]| <= Total(hp.Keys, hp) {
      assert 2 * |hp[h]| <= Total(hp.Keys, hp);
    }
  }

  function Pop(hp: HostProxies, h: string): HostProxies
    requires h in hp && hp[h] != []
  {
    hp[h := hp[h][..|hp[h]| - 1]]
  }

  lemma TotalThree(hp: HostProxies, a: string, b: string, c: string)
    requires a in hp && b in hp && c in hp && a != b && b != c && a != c
    ensures |hp[a]| + |hp[b]| + |hp[c]| <= Total(hp.Keys, hp)
  {
    TotalRemove(hp.Keys, hp, a);
    TotalRemove(hp.Keys - {a}, hp, b);
    TotalMember(hp.Keys - {a} - {b}, hp, c);
  }

  /** Taking one proxy from the largest host and one from any other host leaves room
      for the remaining pairs, whichever the other host is. */
  lemma PairKeepsRoom(hp: HostProxies, a: string, b: string, left: nat)
    requires Room(hp, left) && left > 0
    requires a in hp && b in hp && a != b && hp[a] != [] && hp[b] != []
    requires forall h :: h in hp ==> |hp[h]| <= |hp[a]|
    ensures Room(Pop(Pop(hp, a), b), left - 1)
  {
    var hp' := Pop(Pop(hp, a), b);
    TotalUpdate(hp, a, hp[a][..|hp[a]| - 1]);
    TotalUpdate(Pop(hp, a), b, hp[b][..|hp[b]| - 1]);
    assert hp'.Keys == hp.Keys;
    forall h | h in hp' ensures left - 1 + |hp'[h]| <= Total(hp'.Keys, hp') {
      if h != a && h != b {
        TotalThree(hp, a, b, h);
        assert left + |hp[a]| <= Total(hp.Keys, hp);
      }
    }
  }

  lemma SomeHost(hp: HostProxies, left: nat)
    requires Room(hp, left) && left > 0
    ensures hp.Keys != {}
  {
    TotalZero(hp.Keys, hp);
  }

  lemma OtherHostExists(hp: HostProxies, a: string, left: nat)
    requires Room(hp, left) && left > 0 && a in hp && forall h :: h in hp ==> |hp[h]| <= |hp[a]|
    ensures hp[a] != [] && exists b :: b in hp && b != a && hp[b] != []
  {
    TotalRemove(hp.Keys, hp, a);
    TotalZero(hp.Keys - {a}, hp);
    assert left + |hp[a]| <= Total(hp.Keys, hp);
    var b :| b in hp && b != a && hp[b] != [];
    assert |hp[b]| <= |hp[a]|;
  }

  // ----- links between hosts -----

  /** Any two of these hosts have an entry for each other. */
  predicate Linked(hosts: set<string>, links: Links) {
    forall a, b :: a in hosts && b in hosts && a != b ==> a in links && b in links[a]
  }

  predicate Candidate(hp: HostProxies, links: Links, a: string, b: string)
    requires a in links
  {
    b in links[a] && b != a && b in hp && hp[b] != []
  }

  /** Fewer links to `a`, or as many and more free proxies. */
  predicate Better(hp: HostProxies, links: Links, a: string, b: string, c: string)
    requires a in links && b in links[a] && c in links[a] && b in hp && c in hp
  {
    links[a][b] < links[a][c] || (links[a][b] == links[a][c] && |hp[b]| > |hp[c]|)
  }

  /** The best partner host, whatever the order in which candidates are met. */
  method PickSecond(hp: HostProxies, links: Links, a: string) returns (b: string)
    requires a in links && exists c :: Candidate(hp, links, a, c)
    ensures Candidate(hp, links, a, b)
    ensures forall c :: Candidate(hp, links, a, c) ==> !Better(hp, links, a, c, b)
  {
    b :| b in links[a] && Candidate(hp, links, a, b);
    var rest := links[a].Keys;
    while rest != {}
      invariant rest <= links[a].Keys && Candidate(hp, links, a, b)
      invariant forall c :: Candidate(hp, links, a, c) && c !in rest ==> !Better(hp, links, a, c, b)
      decreases rest
    {
      var c :| c in rest;
      if Candidate(hp, links, a, c) && Better(hp, links, a, c, b) {
        b := c;
      }
      rest := rest - {c};
    }
  }

  method PickFirst(hp: HostProxies) returns (a: string)
    requires hp.Keys != {}
    ensures a in hp && forall h :: h in hp ==> |hp[h]| <= |hp[a]|
  {
    a :| a in hp;
    var rest := hp.Keys;
    while rest != {}
      invariant rest <= hp.Keys && a in hp
      invariant forall h :: h in hp && h !in rest ==> |hp[h]| <= |hp[a]|
      decreases rest
    {
      var h :| h in rest;
      if |hp[h]| > |hp[a]| {
        a := h;
      }
      rest := rest - {h};
    }
  }

  function Link(links: Links, a: string, b: string): Links
    requires a in links && b in links[a]
  {
    links[a := links[a][b := links[a][b] + 1]]
  }

  /** Counts the new chunk from both ends. */
  function LinkPair(ghost hosts: set<string>, links: Links, a: string, b: string): (links': Links)
    requires Linked(hosts, links) && a in hosts && b in hosts && a != b
    ensures Linked(hosts, links')
  {
    Link(Link(links, a, b), b, a)
  }

  /** Proxies taken so far are not in the lists any more. */
  ghost predicate Taken(pairs: seq<(string, string)>, hp: HostProxies) {
    forall i, h :: 0 <= i < |pairs| && h in hp ==> pairs[i].0 !in hp[h] && pairs[i].1 !in hp[h]
  }

  lemma PopHeld(free: Free, hp: HostProxies, h: string)
    requires Held(free, hp) && h in hp && hp[h] != []
    ensures Held(free, Pop(hp, h))
    ensures var a := hp[h][|hp[h]| - 1];
            && a in free && free[a] == h
            && (forall k :: k in hp ==> a !in Pop(hp, h)[k])
            && (forall k, x :: k in hp && x in Pop(hp, h)[k] ==> x in hp[k])
  {
    var n := |hp[h]| - 1;
    var a := hp[h][n];
    HeldPrefix(free, hp, h, n);
    assert a in hp[h];
    assert Distinct(hp[h]);
    forall k | k in hp ensures a !in Pop(hp, h)[k] {
      if k != h && a in hp[k] {
        assert free[a] == k;
      }
    }
    forall k, x | k in hp && x in Pop(hp, h)[k] ensures x in hp[k] {
    }
  }

  /** What one round of the loop keeps. */
  ghost predicate Allocating(free: Free, hp: HostProxies, links: Links, pairs: seq<(string, string)>, left: nat) {
    && Held(free, hp) && Linked(hp.Keys, links) && Room(hp, left)
    && Pairing(free, pairs) && Taken(pairs, hp)
  }

  lemma PairingAdd(free: Free, pairs: seq<(string, string)>, p: (string, string))
    requires Pairing(free, pairs) && CrossHost(free, p)
    requires forall i :: 0 <= i < |pairs| ==>
               pairs[i].0 != p.0 && pairs[i].0 != p.1 && pairs[i].1 != p.0 && pairs[i].1 != p.1
    ensures Pairing(free, pairs + [p])
  {
  }

  lemma AddPair(free: Free, hp: HostProxies, a: string, b: string, pairs: seq<(string, string)>)
    requires Held(free, hp) && Pairing(free, pairs) && Taken(pairs, hp)
    requires a in hp && b in hp && a != b && hp[a] != [] && hp[b] != []
    ensures var p := (hp[a][|hp[a]| - 1], hp[b][|hp[b]| - 1]);
            && Held(free, Pop(Pop(hp, a), b)) && Pairing(free, pairs + [p]) && Taken(pairs + [p], Pop(Pop(hp, a), b))
  {
    var p := (hp[a][|hp[a]| - 1], hp[b][|hp[b]| - 1]);
    PopHeld(free, hp, a);
    PopHeld(free, Pop(hp, a), b);
    assert p.0 in hp[a] && p.1 in hp[b];
    hide Held, Pairing;
    PairingAdd(free, pairs, p);
  }

  /** Takes a proxy off the largest host and one off its best partner. */
  method TakePair(hp0: HostProxies, links0: Links, ghost free: Free,
                  ghost pairs: seq<(string, string)>, ghost left: nat)
    returns (hp: HostProxies, links: Links, pair: (string, string))
    requires left > 0 && Allocating(free, hp0, links0, pairs, left)
    ensures Allocating(free, hp, links, pairs + [pair], left - 1) && hp.Keys == hp0.Keys
    ensures Chosen(hp0, links0, free, pair, hp, links)
  {
    hide Held, Room, Pairing, Taken, Better;
    SomeHost(hp0, left);
    var a := PickFirst(hp0);
    OtherHostExists(hp0, a, left);
    var first := hp0[a][|hp0[a]| - 1];
    hp := Pop(hp0, a);
    PartnerExists(hp0, links0, a);
    var b := PickSecond(hp, links0, a);
    assert hp[b] == hp0[b];
    var second := hp[b][|hp[b]| - 1];
    hp := Pop(hp, b);
    assert hp.Keys == hp0.Keys;
    pair := (first, second);
    links := LinkPair(hp0.Keys, links0, a, b);
    PairChosen(hp0, links0, free, a, b, pair);
    hide *;
    PairKeepsRoom(hp0, a, b, left);
    AddPair(free, hp0, a, b, pairs);
    StillAllocating(free, hp, links, pairs + [pair], left - 1);
  }

  function HostOf(free: Free, a: string): string {
    if a in free then free[a] else ""
  }

  /** The pair takes one proxy off a largest host and one off its best partner, and both
      lists and the link counts follow. */
  ghost predicate Chosen(hp0: HostProxies, links0: Links, free: Free, pair: (string, string),
                         hp: HostProxies, links: Links)
  {
    var a, b := HostOf(free, pair.0), HostOf(free, pair.1);
    && a in hp0 && b in hp0 && a != b && hp.Keys == hp0.Keys
    && (forall h :: h in hp0 ==> |hp0[h]| <= |hp0[a]|)
    && (forall c :: c in hp0 && c != a && hp0[c] != [] ==>
          || Count(links0, a, b) < Count(links0, a, c)
          || (Count(links0, a, b) == Count(links0, a, c) && |hp0[b]| >= |hp0[c]|))
    && (forall h :: h in hp0 ==> |hp0[h]| == |hp[h]| + if h == a || h == b then 1 else 0)
    && (forall x, y :: Count(links, x, y) == Count(links0, x, y) +
          (if x == a && y == b then 1 else 0) + (if x == b && y == a then 1 else 0))
  }

  lemma PairChosen(hp0: HostProxies, links0: Links, free: Free, a: string, b: string, pair: (string, string))
    requires Held(free, hp0) && Linked(hp0.Keys, links0) && a in hp0 && b in hp0 && a != b
    requires hp0[a] != [] && hp0[b] != [] && a in links0
    requires pair == (hp0[a][|hp0[a]| - 1], hp0[b][|hp0[b]| - 1])
    requires forall h :: h in hp0 ==> |hp0[h]| <= |hp0[a]|
    requires Candidate(Pop(hp0, a), links0, a, b)
    requires forall c :: Candidate(Pop(hp0, a), links0, a, c) ==> !Better(Pop(hp0, a), links0, a, c, b)
    ensures Chosen(hp0, links0, free, pair, Pop(Pop(hp0, a), b), LinkPair(hp0.Keys, links0, a, b))
  {
    assert pair.0 in hp0[a] && pair.1 in hp0[b];
    assert HostOf(free, pair.0) == a && HostOf(free, pair.1) == b;
    LinkPairCounts(hp0.Keys, links0, a, b);
    hide LinkPair, Held, HostOf, Linked, Count, Candidate, Better;
    forall c | c in hp0 && c != a && hp0[c] != []
      ensures Count(links0, a, b) < Count(links0, a, c) ||
              (Count(links0, a, b) == Count(links0, a, c) && |hp0[b]| >= |hp0[c]|)
    {
      Outranked(hp0, links0, a, b, c);
    }
  }

  lemma Outranked(hp0: HostProxies, links0: Links, a: string, b: string, c: string)
    requires Linked(hp0.Keys, links0) && a in hp0 && b in hp0 && c in hp0 && a != b && c != a
    requires hp0[a] != [] && hp0[c] != [] && a in links0 && Candidate(Pop(hp0, a), links0, a, b)
    requires forall x :: Candidate(Pop(hp0, a), links0, a, x) ==> !Better(Pop(hp0, a), links0, a, x, b)
    ensures Count(links0, a, b) < Count(links0, a, c) ||
            (Count(links0, a, b) == Count(links0, a, c) && |hp0[b]| >= |hp0[c]|)
  {
    assert Candidate(Pop(hp0, a), links0, a, c);
  }

  lemma LinkPairCounts(hosts: set<string>, links: Links, a: string, b: string)
    requires Linked(hosts, links) && a in hosts && b in hosts && a != b
    ensures forall x, y :: Count(LinkPair(hosts, links, a, b), x, y) == Count(links, x, y) +
              (if x == a && y == b then 1 else 0) + (if x == b && y == a then 1 else 0)
  {
    LinkCounts(links, a, b);
    LinkCounts(Link(links, a, b), b, a);
    hide Link, Count;
  }

  // ----- the preference over all pairs -----

  /** The hosts of pairs already taken. */
  ghost function PairHosts(free: Free, pairs: seq<(string, string)>): seq<(string, string)> {
    if pairs == [] then []
    else
      var p := pairs[|pairs| - 1];
      PairHosts(free, pairs[..|pairs| - 1]) + [(HostOf(free, p.0), HostOf(free, p.1))]
  }

  ghost function UsedOn(free: Free, pairs: seq<(string, string)>, h: string): nat {
    if pairs == [] then 0
    else
      var p := pairs[|pairs| - 1];
      UsedOn(free, pairs[..|pairs| - 1], h) + (if HostOf(free, p.0) == h then 1 else 0) +
      (if HostOf(free, p.1) == h then 1 else 0)
  }

  /** After the pairs `taken`, `p` takes a proxy off a host with the most left and one off
      another host, among those with any left one that shares the fewest chunks with the
      first, in the store and in `taken`, and then has the most left. */
  ghost predicate BestPair(sizes: map<string, nat>, chunkHosts: seq<(string, string)>, free: Free,
                           taken: seq<(string, string)>, p: (string, string))
  {
    var a, b, list := HostOf(free, p.0), HostOf(free, p.1), chunkHosts + PairHosts(free, taken);
    && a in sizes && b in sizes && a != b
    && (forall h :: h in sizes ==> sizes[h] - UsedOn(free, taken, h) <= sizes[a] - UsedOn(free, taken, a))
    && (forall c :: c in sizes && c != a && UsedOn(free, taken, c) < sizes[c] ==>
          || Chunks(list, a, b) < Chunks(list, a, c)
          || (&& Chunks(list, a, b) == Chunks(list, a, c)
              && sizes[b] - UsedOn(free, taken, b) >= sizes[c] - UsedOn(free, taken, c)))
  }

  ghost predicate BestPairs(sizes: map<string, nat>, chunkHosts: seq<(string, string)>, free: Free,
                            pairs: seq<(string, string)>)
  {
    forall i :: 0 <= i < |pairs| ==> BestPair(sizes, chunkHosts, free, pairs[..i], pairs[i])
  }

  /** The lists and link counts are what the pairs taken left. */
  ghost predicate Follows(sizes: map<string, nat>, chunkHosts: seq<(string, string)>, free: Free,
                          pairs: seq<(string, string)>, hp: HostProxies, links: Links)
  {
    && hp.Keys == sizes.Keys
    && (forall h :: h in sizes ==> |hp[h]| + UsedOn(free, pairs, h) == sizes[h])
    && (forall x, y :: Count(links, x, y) == Chunks(chunkHosts + PairHosts(free, pairs), x, y))
  }

  lemma ChosenIsBest(sizes: map<string, nat>, chunkHosts: seq<(string, string)>, free: Free,
                     pairs: seq<(string, string)>, hp: HostProxies, links: Links, pair: (string, string),
                     hp': HostProxies, links': Links)
    requires Follows(sizes, chunkHosts, free, pairs, hp, links) && Chosen(hp, links, free, pair, hp', links')
    ensures BestPair(sizes, chunkHosts, free, pairs, pair)
  {
    hide Count, Chunks, UsedOn, PairHosts, HostOf;
    assert forall h :: h in sizes ==> |hp[h]| == sizes[h] - UsedOn(free, pairs, h);
  }

  lemma ChosenFollows(sizes: map<string, nat>, chunkHosts: seq<(string, string)>, free: Free,
                      pairs: seq<(string, string)>, hp: HostProxies, links: Links, pair: (string, string),
                      hp': HostProxies, links': Links)
    requires Follows(sizes, chunkHosts, free, pairs, hp, links) && Chosen(hp, links, free, pair, hp', links')
    ensures Follows(sizes, chunkHosts, free, pairs + [pair], hp', links')
  {
    var now, hosts := pairs + [pair], (HostOf(free, pair.0), HostOf(free, pair.1));
    forall h ensures UsedOn(free, now, h) == UsedOn(free, pairs, h) + (if hosts.0 == h then 1 else 0) +
                     (if hosts.1 == h then 1 else 0)
    {
      assert now[..|pairs|] == pairs;
    }
    forall x, y ensures Chunks(chunkHosts + PairHosts(free, now), x, y) ==
                        Chunks(chunkHosts + PairHosts(free, pairs), x, y) +
                        (if x == hosts.0 && y == hosts.1 then 1 else 0) +
                        (if x == hosts.1 && y == hosts.0 then 1 else 0)
    {
      MoreHosts(chunkHosts, free, pairs, pair, x, y);
    }
    hide Count, HostOf, UsedOn, Chunks, PairHosts;
  }

  lemma MoreHosts(chunkHosts: seq<(string, string)>, free: Free, pairs: seq<(string, string)>, pair: (string, string),
                  x: string, y: string)
    ensures var a, b := HostOf(free, pair.0), HostOf(free, pair.1);
            Chunks(chunkHosts + PairHosts(free, pairs + [pair]), x, y) ==
            Chunks(chunkHosts + PairHosts(free, pairs), x, y) +
            (if x == a && y == b then 1 else 0) + (if x == b && y == a then 1 else 0)
  {
    var now, hosts := pairs + [pair], (HostOf(free, pair.0), HostOf(free, pair.1));
    assert now[..|pairs|] == pairs;
    var list := chunkHosts + PairHosts(free, pairs);
    assert chunkHosts + PairHosts(free, now) == list + [hosts];
    assert (list + [hosts])[..|list|] == list;
  }

  lemma BestStep(sizes: map<string, nat>, chunkHosts: seq<(string, string)>, free: Free,
                 pairs: seq<(string, string)>, hp: HostProxies, links: Links, pair: (string, string),
                 hp': HostProxies, links': Links)
    requires BestPairs(sizes, chunkHosts, free, pairs)
    requires Follows(sizes, chunkHosts, free, pairs, hp, links) && Chosen(hp, links, free, pair, hp', links')
    ensures BestPairs(sizes, chunkHosts, free, pairs + [pair])
    ensures Follows(sizes, chunkHosts, free, pairs + [pair], hp', links')
  {
    hide BestPair, Follows, Chosen;
    ChosenIsBest(sizes, chunkHosts, free, pairs, hp, links, pair, hp', links');
    ChosenFollows(sizes, chunkHosts, free, pairs, hp, links, pair, hp', links');
    var now := pairs + [pair];
    forall i | 0 <= i < |now| ensures BestPair(sizes, chunkHosts, free, now[..i], now[i]) {
      assert now[..i] == pairs[..i];
    }
  }

  function Sizes(hp: HostProxies): map<string, nat> {
    map h | h in hp :: |hp[h]|
  }

  lemma NothingTaken(hp: HostProxies, chunkHosts: seq<(string, string)>, free: Free, links: Links)
    requires forall a, b :: Count(links, a, b) == Chunks(chunkHosts, a, b)
    ensures Follows(Sizes(hp), chunkHosts, free, [], hp, links) && BestPairs(Sizes(hp), chunkHosts, free, [])
  {
    assert chunkHosts + PairHosts(free, []) == chunkHosts;
  }

  lemma StillAllocating(free: Free, hp: HostProxies, links: Links, pairs: seq<(string, string)>, left: nat)
    requires Held(free, hp) && Linked(hp.Keys, links) && Room(hp, left)
    requires Pairing(free, pairs) && Taken(pairs, hp)
    ensures Allocating(free, hp, links, pairs, left)
  {
  }

  lemma PartnerExists(hp: HostProxies, links: Links, a: string)
    requires Linked(hp.Keys, links) && a in hp && hp[a] != []
    requires exists b :: b in hp && b != a && hp[b] != []
    ensures a in links && exists c :: Candidate(Pop(hp, a), links, a, c)
  {
    var b :| b in hp && b != a && hp[b] != [];
    assert Candidate(Pop(hp, a), links, a, b);
  }

  /** Exactly `expected / 2` disjoint pairs across hosts; both errors exactly as the
      counts say, and no lookup in between can fail. */
  method AllocateChunk(hp0: HostProxies, links0: Links, expected: nat, ghost free: Free,
                       ghost chunkHosts: seq<(string, string)>)
    returns (r: Allocation)
    requires Held(free, hp0) && Linked(hp0.Keys, links0) && expected % 2 == 0
    requires forall a, b :: Count(links0, a, b) == Chunks(chunkHosts, a, b)
    ensures Total(hp0.Keys, hp0) < expected ==> r == NoAvailableResource
    ensures Total(hp0.Keys, hp0) >= expected && !Even(hp0) ==> r == ResourceNotBalance
    ensures Total(hp0.Keys, hp0) >= expected && Even(hp0) ==>
              && r.Pairs? && Pairing(free, r.pairs) && 2 * |r.pairs| == expected
              && BestPairs(Sizes(hp0), chunkHosts, free, r.pairs)
  {
    hide *;
    var sum, max := Measure(hp0);
    if sum < expected {
      return NoAvailableResource;
    }
    MaxEven(hp0, max);
    if max * 2 > sum {
      return ResourceNotBalance;
    }
    var hp, links, pairs := hp0, links0, [];
    StartAllocating(free, hp, links, expected / 2);
    NothingTaken(hp, chunkHosts, free, links);
    while |pairs| * 2 < expected
      invariant |pairs| * 2 <= expected
      invariant Allocating(free, hp, links, pairs, expected / 2 - |pairs|)
      invariant Follows(Sizes(hp0), chunkHosts, free, pairs, hp, links)
      invariant BestPairs(Sizes(hp0), chunkHosts, free, pairs)
    {
      var hp', links', pair := TakePair(hp, links, free, pairs, expected / 2 - |pairs|);
      BestStep(Sizes(hp0), chunkHosts, free, pairs, hp, links, pair, hp', links');
      hp, links, pairs := hp', links', pairs + [pair];
    }
    Allocated(free, hp, links, pairs, expected / 2 - |pairs|);
    return Pairs(pairs);
  }

  lemma Allocated(free: Free, hp: HostProxies, links: Links, pairs: seq<(string, string)>, left: nat)
    requires Allocating(free, hp, links, pairs, left)
    ensures Pairing(free, pairs)
  {
  }

  lemma StartAllocating(free: Free, hp: HostProxies, links: Links, n: nat)
    requires Held(free, hp) && Linked(hp.Keys, links) && Even(hp) && 2 * n <= Total(hp.Keys, hp)
    ensures Allocating(free, hp, links, [], n)
  {
    hide Held, Linked;
    EvenHasRoom(hp, n);
  }

  lemma MaxEven(hp: HostProxies, max: nat)
    requires IsMax(hp, max)
    ensures Even(hp) <==> 2 * max <= Total(hp.Keys, hp)
  {
    if max > 0 {
      var h :| h in hp && |hp[h]| == max;
    }
  }

  // ----- when there is no pairing -----

  ghost function Used(pairs: seq<(string, string)>): set<string> {
    if pairs == [] then {}
    else Used(pairs[..|pairs| - 1]) + {pairs[|pairs| - 1].0, pairs[|pairs| - 1].1}
  }

  /** From each pair one proxy that is not on host `h`. */
  ghost function Away(free: Free, pairs: seq<(string, string)>, h: string): set<string> {
    if pairs == [] then {}
    else
      var p := pairs[|pairs| - 1];
      Away(free, pairs[..|pairs| - 1], h) + {if p.0 in free && free[p.0] == h then p.1 else p.0}
  }

  lemma {:induction false} UsedMember(pairs: seq<(string, string)>, a: string)
    ensures a in Used(pairs) <==> exists i :: 0 <= i < |pairs| && (a == pairs[i].0 || a == pairs[i].1)
  {
    if pairs != [] {
      var front := pairs[..|pairs| - 1];
      UsedMember(front, a);
      if i :| 0 <= i < |pairs| && (a == pairs[i].0 || a == pairs[i].1) {
        assert i < |front| ==> front[i] == pairs[i];
      }
    }
  }

  lemma {:induction false} UsedSize(free: Free, pairs: seq<(string, string)>)
    requires Pairing(free, pairs)
    ensures |Used(pairs)| == 2 * |pairs| && Used(pairs) <= free.Keys
  {
    if pairs != [] {
      var n := |pairs| - 1;
      UsedSize(free, pairs[..n]);
      UsedMember(pairs[..n], pairs[n].0);
      UsedMember(pairs[..n], pairs[n].1);
      assert CrossHost(free, pairs[n]);
    }
  }

  lemma {:induction false} AwaySize(free: Free, pairs: seq<(string, string)>, h: string)
    requires Pairing(free, pairs)
    ensures |Away(free, pairs, h)| == |pairs| && Away(free, pairs, h) <= Used(pairs)
    ensures forall a :: a in Away(free, pairs, h) ==> a in free && free[a] != h
  {
    if pairs != [] {
      var n := |pairs| - 1;
      AwaySize(free, pairs[..n], h);
      UsedMember(pairs[..n], pairs[n].0);
      UsedMember(pairs[..n], pairs[n].1);
      assert CrossHost(free, pairs[n]);
    }
  }

  ghost function Members(list: seq<string>): set<string> {
    set a | a in list
  }

  lemma {:induction false} DistinctSize(list: seq<string>)
    requires Distinct(list)
    ensures |Members(list)| == |list|
  {
    if list != [] {
      var n := |list| - 1;
      DistinctSize(list[..n]);
      assert Members(list) == Members(list[..n]) + {list[n]};
    }
  }

  lemma SubsetSize(a: set<string>, b: set<string>)
    requires a <= b
    ensures |a| <= |b|
  {
    assert b == a + (b - a);
  }

  /** Too few proxies, or too many on one host, leave no pairing. */
  lemma PairingNeeds(free: Free, hp: HostProxies, max: nat, pairs: seq<(string, string)>)
    requires Grouped(free, free.Keys, hp) && IsMax(hp, max) && Pairing(free, pairs)
    ensures Suffices(Total(hp.Keys, hp), max, 2 * |pairs|)
  {
    UsedSize(free, pairs);
    SubsetSize(Used(pairs), free.Keys);
    if max > 0 {
      var h :| h in hp && |hp[h]| == max;
      AwaySize(free, pairs, h);
      DistinctSize(hp[h]);
      var on, away := Members(hp[h]), Away(free, pairs, h);
      assert on !! away;
      SubsetSize(on + away, free.Keys);
    }
  }

  // ----- the link table -----

  /** Chunks linking the two hosts, counted from either end. */
  function Chunks(chunkHosts: seq<(string, string)>, a: string, b: string): nat {
    if chunkHosts == [] then 0
    else
      var (f, s) := chunkHosts[|chunkHosts| - 1];
      Chunks(chunkHosts[..|chunkHosts| - 1], a, b) +
      (if f == a && s == b then 1 else 0) + (if s == a && f == b then 1 else 0)
  }

  function Count(links: Links, a: string, b: string): nat {
    if a in links && b in links[a] then links[a][b] else 0
  }

  function WithEntry(links: Links, a: string, b: string): Links {
    var peers := if a in links then links[a] else map[];
    if b in peers then links else links[a := peers[b := 0]]
  }

  predicate HasLink(links: Links, a: string, b: string) {
    a in links && b in links[a]
  }

  ghost predicate Extends(links: Links, links': Links) {
    forall a, b :: HasLink(links, a, b) ==> HasLink(links', a, b)
  }

  lemma WithEntryAdds(links: Links, a: string, b: string)
    ensures HasLink(WithEntry(links, a, b), a, b) && Extends(links, WithEntry(links, a, b))
    ensures forall x, y :: HasLink(WithEntry(links, a, b), x, y) ==> HasLink(links, x, y) || (x == a && y == b)
    ensures forall x, y :: Count(WithEntry(links, a, b), x, y) == Count(links, x, y)
  {
  }

  lemma LinkCounts(links: Links, a: string, b: string)
    requires a in links && b in links[a]
    ensures Extends(links, Link(links, a, b)) && Extends(Link(links, a, b), links)
    ensures forall x, y :: Count(Link(links, a, b), x, y) == Count(links, x, y) + if x == a && y == b then 1 else 0
  {
  }

  /** Entries both ways. */
  function WithBoth(links: Links, a: string, b: string): (links': Links)
    ensures HasLink(links', a, b) && HasLink(links', b, a) && Extends(links, links')
    ensures forall x, y :: HasLink(links', x, y) ==>
              HasLink(links, x, y) || (x == a && y == b) || (x == b && y == a)
    ensures forall x, y :: Count(links', x, y) == Count(links, x, y)
  {
    WithEntryAdds(links, a, b);
    WithEntryAdds(WithEntry(links, a, b), b, a);
    WithEntry(WithEntry(links, a, b), b, a)
  }

  /** One more chunk on the two hosts. */
  function LinkBoth(links: Links, a: string, b: string): (links': Links)
    ensures HasLink(links', a, b) && HasLink(links', b, a) && Extends(links, links')
    ensures forall x, y :: HasLink(links', x, y) ==>
              HasLink(links, x, y) || (x == a && y == b) || (x == b && y == a)
    ensures forall x, y :: Count(links', x, y) == Count(links, x, y) +
              (if x == a && y == b then 1 else 0) + (if x == b && y == a then 1 else 0)
  {
    WithEntryAdds(links, a, b);
    var links1 := WithEntry(links, a, b);
    LinkCounts(links1, a, b);
    var links2 := Link(links1, a, b);
    WithEntryAdds(links2, b, a);
    var links3 := WithEntry(links2, b, a);
    LinkCounts(links3, b, a);
    Link(links3, b, a)
  }

  predicate NeedsLink(a: string, b: string, freeHosts: set<string>) {
    a != b && (a in freeHosts || b in freeHosts)
  }

  lemma LinkedApart(a: string, b: string, freeHosts: set<string>)
    requires NeedsLink(a, b, freeHosts)
    ensures a != b
  {
  }

  /** A host is linked to itself only through chunks. */
  ghost predicate SelfLinksCount(links: Links) {
    forall a :: HasLink(links, a, a) ==> Count(links, a, a) > 0
  }

  lemma WithEntrySelf(links: Links, a: string, b: string)
    requires SelfLinksCount(links) && a != b
    ensures SelfLinksCount(WithEntry(links, a, b))
  {
    forall x | HasLink(WithEntry(links, a, b), x, x) ensures Count(WithEntry(links, a, b), x, x) > 0 {
      assert HasLink(links, x, x);
    }
  }

  lemma WithBothSelf(links: Links, a: string, b: string)
    requires SelfLinksCount(links) && a != b
    ensures SelfLinksCount(WithBoth(links, a, b))
  {
    hide WithEntry, SelfLinksCount;
    WithEntrySelf(links, a, b);
    WithEntrySelf(WithEntry(links, a, b), b, a);
  }

  lemma LinkBothLinks(links: Links, a: string, b: string, x: string)
    requires HasLink(LinkBoth(links, a, b), x, x) && !(x == a && x == b)
    ensures HasLink(links, x, x)
  {
  }

  lemma LinkBothSelf(links: Links, a: string, b: string)
    requires SelfLinksCount(links)
    ensures SelfLinksCount(LinkBoth(links, a, b))
  {
    forall x | HasLink(LinkBoth(links, a, b), x, x) ensures Count(LinkBoth(links, a, b), x, x) > 0 {
      hide LinkBoth;
      if !(x == a && x == b) {
        LinkBothLinks(links, a, b, x);
      }
    }
  }

  /** Entries were added only between hosts of which one has a proxy outside clusters. */
  ghost predicate OnlyNeeded(links0: Links, links: Links, freeHosts: set<string>) {
    forall x, y :: HasLink(links, x, y) && !HasLink(links0, x, y) ==> x != y && (x in freeHosts || y in freeHosts)
  }

  lemma StillNeeded(links0: Links, links: Links, a: string, b: string, freeHosts: set<string>)
    requires OnlyNeeded(links0, links, freeHosts) && NeedsLink(a, b, freeHosts)
    ensures OnlyNeeded(links0, WithBoth(links, a, b), freeHosts)
  {
    hide WithBoth, HasLink;
  }

  method LinkHost(a: string, hosts: set<string>, freeHosts: set<string>, links0: Links) returns (links: Links)
    requires SelfLinksCount(links0)
    ensures Extends(links0, links) && forall x, y :: Count(links, x, y) == Count(links0, x, y)
    ensures forall b :: b in hosts && NeedsLink(a, b, freeHosts) ==> HasLink(links, a, b)
    ensures SelfLinksCount(links) && OnlyNeeded(links0, links, freeHosts)
  {
    links := links0;
    var rest := hosts;
    while rest != {}
      invariant rest <= hosts && Extends(links0, links) && forall x, y :: Count(links, x, y) == Count(links0, x, y)
      invariant SelfLinksCount(links) && OnlyNeeded(links0, links, freeHosts)
      invariant forall b :: b in hosts && b !in rest && NeedsLink(a, b, freeHosts) ==> HasLink(links, a, b)
      decreases rest
    {
      hide *;
      var b :| b in rest;
      if NeedsLink(a, b, freeHosts) {
        LinkedApart(a, b, freeHosts);
        WithBothSelf(links, a, b);
        StillNeeded(links0, links, a, b, freeHosts);
        links := WithBoth(links, a, b);
      }
      rest := rest - {b};
    }
  }

  /** One entry for every two hosts of which one has a proxy outside all clusters. */
  method LinkHosts(hosts: set<string>, freeHosts: set<string>) returns (links: Links)
    ensures forall a, b :: a in hosts && b in hosts && NeedsLink(a, b, freeHosts) ==> HasLink(links, a, b)
    ensures OnlyNeeded(map[], links, freeHosts)
    ensures SelfLinksCount(links) && forall a, b :: Count(links, a, b) == 0
  {
    links := map[];
    var rest := hosts;
    while rest != {}
      invariant rest <= hosts && SelfLinksCount(links) && forall a, b :: Count(links, a, b) == 0
      invariant OnlyNeeded(map[], links, freeHosts)
      invariant forall a, b :: a in hosts && a !in rest && b in hosts && NeedsLink(a, b, freeHosts) ==>
                  HasLink(links, a, b)
      decreases rest
    {
      var a :| a in rest;
      links := LinkHost(a, hosts, freeHosts, links);
      rest := rest - {a};
    }
  }

  /** An entry is there because a host has proxies outside clusters, or counts chunks. */
  ghost predicate NeededOrUsed(links: Links, freeHosts: set<string>) {
    forall x, y :: HasLink(links, x, y) ==> (x != y && (x in freeHosts || y in freeHosts)) || Count(links, x, y) > 0
  }

  lemma StillUsed(links: Links, freeHosts: set<string>, a: string, b: string)
    requires NeededOrUsed(links, freeHosts)
    ensures NeededOrUsed(LinkBoth(links, a, b), freeHosts)
  {
    hide LinkBoth, HasLink, Count;
  }

  ghost predicate CountsChunks(links: Links, chunkHosts: seq<(string, string)>) {
    && (forall a, b :: Count(links, a, b) == Chunks(chunkHosts, a, b))
    && (forall i :: 0 <= i < |chunkHosts| ==>
          HasLink(links, chunkHosts[i].0, chunkHosts[i].1) && HasLink(links, chunkHosts[i].1, chunkHosts[i].0))
  }

  lemma OneMoreChunk(links: Links, chunkHosts: seq<(string, string)>, p: (string, string))
    requires CountsChunks(links, chunkHosts)
    ensures CountsChunks(LinkBoth(links, p.0, p.1), chunkHosts + [p])
  {
    var now := chunkHosts + [p];
    assert now[..|chunkHosts|] == chunkHosts;
    hide LinkBoth, Count, HasLink;
  }

  method BuildLinkTable(hosts: set<string>, freeHosts: set<string>, chunkHosts: seq<(string, string)>)
    returns (links: Links)
    requires freeHosts <= hosts
    ensures forall a, b :: a in hosts && b in hosts && NeedsLink(a, b, freeHosts) ==> HasLink(links, a, b)
    ensures forall a, b :: HasLink(links, a, b) ==>
              (a != b && (a in freeHosts || b in freeHosts)) || Chunks(chunkHosts, a, b) > 0
    ensures CountsChunks(links, chunkHosts) && SelfLinksCount(links)
  {
    links := LinkHosts(hosts, freeHosts);
    ghost var base := links;
    var i := 0;
    assert chunkHosts[..0] == [];
    while i < |chunkHosts|
      invariant 0 <= i <= |chunkHosts| && Extends(base, links) && CountsChunks(links, chunkHosts[..i])
      invariant SelfLinksCount(links) && NeededOrUsed(links, freeHosts)
    {
      hide CountsChunks, LinkBoth, SelfLinksCount, NeededOrUsed;
      StillUsed(links, freeHosts, chunkHosts[i].0, chunkHosts[i].1);
      LinkBothSelf(links, chunkHosts[i].0, chunkHosts[i].1);
      assert chunkHosts[..i + 1] == chunkHosts[..i] + [chunkHosts[i]];
      OneMoreChunk(links, chunkHosts[..i], chunkHosts[i]);
      links := LinkBoth(links, chunkHosts[i].0, chunkHosts[i].1);
      i := i + 1;
    }
    assert chunkHosts[..i] == chunkHosts;
  }

  /** A chunk allocation gives exactly the asked number of pairs of distinct free
      proxies on different hosts. It never ends in `ResourceNotBalance`, and it
      fails exactly when there are no such pairs. */
  method GenerateFreeChunks(free: Free, hosts: set<string>, freeHosts: set<string>,
                            chunkHosts: seq<(string, string)>, expected: nat)
    returns (r: Allocation)
    requires expected % 2 == 0 && freeHosts <= hosts && free.Values <= freeHosts
    ensures r.Pairs? || r == NoAvailableResource
    ensures r.Pairs? ==> Pairing(free, r.pairs) && 2 * |r.pairs| == expected
    ensures r.Pairs? ==> BestPairs(Stock(free), chunkHosts, free, r.pairs)
    ensures r == NoAvailableResource ==> forall pairs :: Pairing(free, pairs) ==> 2 * |pairs| != expected
  {
    hide *;
    var hp := GroupByHost(free);
    GroupedHeld(free, hp);
    var trimmed, max := RemoveRedundant(hp, expected, free);
    if trimmed.None? {
      NoPairing(free, hp, max, expected);
      return NoAvailableResource;
    }
    var links := BuildLinkTable(hosts, freeHosts, chunkHosts);
    FreeHostsLinked(free, hp, hosts, freeHosts, links);
    CountsAre(links, chunkHosts);
    StockIs(free, hp, trimmed.value);
    r := AllocateChunk(trimmed.value, links, expected, free, chunkHosts);
  }

  /** How many proxies of each host the allocation can use. */
  ghost function Stock(free: Free): map<string, nat> {
    map h | h in free.Values :: AtMostHalf(FreeOn(free, h), |free|)
  }

  lemma StockIs(free: Free, hp: HostProxies, trimmed: HostProxies)
    requires Grouped(free, free.Keys, hp) && trimmed.Keys == hp.Keys
    requires forall h :: h in hp ==> |trimmed[h]| == AtMostHalf(|hp[h]|, Total(hp.Keys, hp))
    ensures Sizes(trimmed) == Stock(free)
  {
    hide *;
    GroupedTotal(free, hp);
    SizesAt(trimmed);
    StockAt(free);
    forall h ensures h in hp <==> h in free.Values {
      GroupedKeys(free, hp, h);
    }
    forall h | h in hp ensures Sizes(trimmed)[h] == Stock(free)[h] {
      GroupedSize(free, hp, h);
    }
    SameSizes(Sizes(trimmed), Stock(free));
  }

  lemma GroupedTotal(free: Free, hp: HostProxies)
    requires Grouped(free, free.Keys, hp)
    ensures Total(hp.Keys, hp) == |free|
  {
    assert |free| == |free.Keys|;
  }

  lemma SizesAt(hp: HostProxies)
    ensures Sizes(hp).Keys == hp.Keys && forall h :: h in hp ==> Sizes(hp)[h] == |hp[h]|
  {
  }

  lemma StockAt(free: Free)
    ensures Stock(free).Keys == free.Values
    ensures forall h :: h in free.Values ==> Stock(free)[h] == AtMostHalf(FreeOn(free, h), |free|)
  {
  }

  lemma SameSizes(x: map<string, nat>, y: map<string, nat>)
    requires x.Keys == y.Keys && forall h :: h in x ==> x[h] == y[h]
    ensures x == y
  {
  }

  lemma CountsAre(links: Links, chunkHosts: seq<(string, string)>)
    requires CountsChunks(links, chunkHosts)
    ensures forall a, b :: Count(links, a, b) == Chunks(chunkHosts, a, b)
  {
  }

  lemma GroupedHeld(free: Free, hp: HostProxies)
    requires Grouped(free, free.Keys, hp)
    ensures Held(free, hp)
  {
  }

  lemma NoPairing(free: Free, hp: HostProxies, max: nat, expected: nat)
    requires Grouped(free, free.Keys, hp) && IsMax(hp, max)
    requires !Suffices(Total(hp.Keys, hp), max, expected)
    ensures forall pairs :: Pairing(free, pairs) ==> 2 * |pairs| != expected
  {
    forall pairs | Pairing(free, pairs) ensures 2 * |pairs| != expected {
      PairingNeeds(free, hp, max, pairs);
    }
  }

  lemma FreeHostsLinked(free: Free, hp: HostProxies, hosts: set<string>, freeHosts: set<string>, links: Links)
    requires Grouped(free, free.Keys, hp) && freeHosts <= hosts && free.Values <= freeHosts
    requires forall a, b :: a in hosts && b in hosts && NeedsLink(a, b, freeHosts) ==> HasLink(links, a, b)
    ensures Linked(hp.Keys, links)
  {
    HostsAreFree(free, hp);
    forall a, b | a in hp && b in hp && a != b ensures a in links && b in links[a] {
      assert NeedsLink(a, b, freeHosts);
      assert HasLink(links, a, b);
    }
  }

  lemma HostsAreFree(free: Free, hp: HostProxies)
    requires Grouped(free, free.Keys, hp)
    ensures hp.Keys <= free.Values
  {
    forall h | h in hp ensures h in free.Values {
      assert hp[h][0] in hp[h];
    }
  }

  // ----- a replacement for a failed proxy -----

  predicate Preferred(hp: HostProxies, peers: map<string, nat>, b: string, c: string)
    requires b in hp && c in hp && b in peers && c in peers
  {
    peers[b] < peers[c] || (peers[b] == peers[c] && |hp[b]| > |hp[c]|)
  }

  method PickPeer(hp: HostProxies, peers: map<string, nat>) returns (best: Option<string>)
    ensures best.None? <==> forall c :: c in peers ==> c !in hp
    ensures best.Some? ==>
              && best.value in peers && best.value in hp
              && forall c :: c in peers && c in hp ==> !Preferred(hp, peers, c, best.value)
  {
    best := None;
    var rest := peers.Keys;
    while rest != {}
      invariant rest <= peers.Keys
      invariant best.None? ==> forall c :: c in peers && c !in rest ==> c !in hp
      invariant best.Some? ==>
                  && best.value in peers && best.value in hp
                  && forall c :: c in peers && c in hp && c !in rest ==> !Preferred(hp, peers, c, best.value)
      decreases rest
    {
      var c :| c in rest;
      if c in hp && (best.None? || Preferred(hp, peers, c, best.value)) {
        best := Some(c);
      }
      rest := rest - {c};
    }
  }

  /** The hosts a replacement may come from: those with a free proxy, and the failed
      proxy's own host only if some chunk is wholly on it. */
  predicate MayReplace(free: Free, chunkHosts: seq<(string, string)>, failedHost: string, c: string) {
    c in free.Values && (c == failedHost ==> Chunks(chunkHosts, c, c) > 0)
  }

  predicate NoReplacement(free: Free, chunkHosts: seq<(string, string)>, failedHost: string) {
    forall c :: c in free.Values ==> !MayReplace(free, chunkHosts, failedHost, c)
  }

  function FreeOn(free: Free, host: string): nat {
    |set a | a in free && free[a] == host|
  }

  /** No candidate shares fewer chunks with the failed host, nor as many with more free
      proxies. */
  predicate BestHost(free: Free, chunkHosts: seq<(string, string)>, failedHost: string, b: string) {
    && MayReplace(free, chunkHosts, failedHost, b)
    && forall c :: c in free.Values && MayReplace(free, chunkHosts, failedHost, c) ==>
         && Chunks(chunkHosts, failedHost, b) <= Chunks(chunkHosts, failedHost, c)
         && (Chunks(chunkHosts, failedHost, b) == Chunks(chunkHosts, failedHost, c) ==>
               FreeOn(free, b) >= FreeOn(free, c))
  }

  lemma GroupedSize(free: Free, hp: HostProxies, h: string)
    requires Grouped(free, free.Keys, hp) && h in hp
    ensures |hp[h]| == FreeOn(free, h)
  {
    hide Total;
    DistinctSize(hp[h]);
    assert Members(hp[h]) == set a | a in free && free[a] == h;
  }

  lemma GroupedKeys(free: Free, hp: HostProxies, h: string)
    requires Grouped(free, free.Keys, hp)
    ensures h in hp <==> h in free.Values
  {
    hide Total;
    if h in hp {
      assert hp[h][0] in hp[h];
    }
  }

  /** The hosts the failed host is linked to and that have free proxies are the candidates. */
  lemma LinkedCandidates(free: Free, hosts: set<string>, freeHosts: set<string>, chunkHosts: seq<(string, string)>,
                         links: Links, failedHost: string, c: string)
    requires freeHosts <= hosts && free.Values <= freeHosts && failedHost in hosts
    requires forall a, b :: a in hosts && b in hosts && NeedsLink(a, b, freeHosts) ==> HasLink(links, a, b)
    requires CountsChunks(links, chunkHosts) && SelfLinksCount(links)
    ensures c in free.Values && HasLink(links, failedHost, c) <==> MayReplace(free, chunkHosts, failedHost, c)
    ensures HasLink(links, failedHost, c) ==> links[failedHost][c] == Chunks(chunkHosts, failedHost, c)
  {
    hide Chunks;
    assert Count(links, failedHost, c) == Chunks(chunkHosts, failedHost, c);
    assert c in free.Values && c != failedHost ==> NeedsLink(failedHost, c, freeHosts);
  }

  lemma PickedIsBest(free: Free, chunkHosts: seq<(string, string)>, hp: HostProxies, peers: map<string, nat>,
                     failedHost: string, best: string)
    requires Grouped(free, free.Keys, hp) && best in peers && best in hp
    requires forall c :: c in peers && c in hp ==> !Preferred(hp, peers, c, best)
    requires forall c :: c in free.Values && c in peers <==> MayReplace(free, chunkHosts, failedHost, c)
    requires forall c :: c in peers ==> peers[c] == Chunks(chunkHosts, failedHost, c)
    ensures BestHost(free, chunkHosts, failedHost, best)
  {
    hide Grouped, MayReplace, Chunks, FreeOn;
    GroupedKeys(free, hp, best);
    GroupedSize(free, hp, best);
    forall c | c in free.Values && MayReplace(free, chunkHosts, failedHost, c)
      ensures Chunks(chunkHosts, failedHost, best) <= Chunks(chunkHosts, failedHost, c)
      ensures Chunks(chunkHosts, failedHost, best) == Chunks(chunkHosts, failedHost, c) ==>
                FreeOn(free, best) >= FreeOn(free, c)
    {
      GroupedKeys(free, hp, c);
      GroupedSize(free, hp, c);
      assert !Preferred(hp, peers, c, best);
    }
  }

  /** The replacement is a free proxy of a best host; there is none exactly if there is no
      candidate host. */
  method GenerateNewFreeProxy(free: Free, hosts: set<string>, freeHosts: set<string>,
                              chunkHosts: seq<(string, string)>, failedHost: string)
    returns (proxy: Option<string>)
    requires freeHosts <= hosts && free.Values <= freeHosts && failedHost in hosts
    requires exists i :: 0 <= i < |chunkHosts| && (chunkHosts[i].0 == failedHost || chunkHosts[i].1 == failedHost)
    ensures proxy.None? <==> NoReplacement(free, chunkHosts, failedHost)
    ensures proxy.Some? ==> proxy.value in free && BestHost(free, chunkHosts, failedHost, free[proxy.value])
  {
    var hp := GroupByHost(free);
    var links := BuildLinkTable(hosts, freeHosts, chunkHosts);
    ghost var i :| 0 <= i < |chunkHosts| && (chunkHosts[i].0 == failedHost || chunkHosts[i].1 == failedHost);
    assert HasLink(links, chunkHosts[i].0, chunkHosts[i].1) && HasLink(links, chunkHosts[i].1, chunkHosts[i].0);
    var peers := links[failedHost];
    assert forall c :: c in peers <==> HasLink(links, failedHost, c);
    assert NoReplacement(free, chunkHosts, failedHost) <==>
           forall c :: c in free.Values ==> !MayReplace(free, chunkHosts, failedHost, c);
    hide *;
    forall c
      ensures c in free.Values && c in peers <==> MayReplace(free, chunkHosts, failedHost, c)
      ensures c in peers ==> peers[c] == Chunks(chunkHosts, failedHost, c)
      ensures c in hp <==> c in free.Values
    {
      LinkedCandidates(free, hosts, freeHosts, chunkHosts, links, failedHost, c);
      GroupedKeys(free, hp, c);
    }
    var peer := PickPeer(hp, peers);
    if peer.None? {
      return None;
    }
    PickedIsBest(free, chunkHosts, hp, peers, failedHost, peer.value);
    var a :| a in free && free[a] == peer.value;
    return Some(a);
  }
}

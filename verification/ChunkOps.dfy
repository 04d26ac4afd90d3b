/** Creating a cluster's slots, adding empty chunks and deleting free ones
    (src/broker/update.rs, proxy_resource_to_chunk_store, auto_add_nodes and
    auto_delete_free_nodes). */
module ChunkOps {
  import opened Ranges
  import opened Shares
  import opened ClusterState

  // ----- adding one part at the end -----

  lemma SnocSums(parts: seq<Part>, p: Part, s: nat, m: bool)
    ensures StableCover(parts + [p], s) == StableCover(parts, s) + Cover(Stored(p.stable), s)
    ensures AllHalves(parts + [p], m) == AllHalves(parts, m) + Halves(p.entries, m)
  {
    assert (parts + [p])[..|parts|] == parts;
  }

  lemma {:induction false} NoTasks(parts: seq<Part>, s: nat)
    requires NoEntries(parts)
    ensures AllOuts(parts) == AllIns(parts) == [] && TaskCover(AllOuts(parts), s) == 0
  {
    NoEntriesNoTasks(parts, true);
    NoEntriesNoTasks(parts, false);
  }

  /** An invariant at some epoch holds at every later one. */
  lemma LaterEpoch(parts: seq<Part>, epoch: nat, epoch': nat)
    requires SlotsInv(parts, epoch) && epoch <= epoch'
    ensures SlotsInv(parts, epoch')
  {
    forall i | 0 <= i < |parts| ensures GoodPart(parts[i], i, |parts|, epoch') {
      assert GoodPart(parts[i], i, |parts|, epoch);
    }
  }

  // ----- the slots of a new cluster -----

  ghost predicate Holding(p: Part, size: nat) {
    && p.entries == [] && p.stable.Some?
    && p.stable.value != [] && Canonical(p.stable.value) && Size(p.stable.value) == size
  }

  ghost predicate Shared(parts: seq<Part>, m: nat)
    requires m > 0
  {
    forall i :: 0 <= i < |parts| ==> Holding(parts[i], Share(m, i))
  }

  ghost predicate CoversBelow(parts: seq<Part>, upto: nat) {
    forall s: nat :: StableCover(parts, s) == if s < upto then 1 else 0
  }

  /** Part `i` has one range, from `start` up to below `end`. */
  predicate Spans(parts: seq<Part>, i: nat, start: nat, end: nat)
    requires i < |parts|
  {
    && parts[i].stable.Some? && |parts[i].stable.value| == 1
    && parts[i].stable.value[0].start == start && parts[i].stable.value[0].end + 1 == end
  }

  function EndOf(parts: seq<Part>, i: nat, upto: nat): nat {
    if i + 1 < |parts| then StartOf(parts, i + 1) else upto
  }

  function StartOf(parts: seq<Part>, i: nat): nat {
    if i < |parts| && parts[i].stable.Some? && parts[i].stable.value != [] then parts[i].stable.value[0].start else 0
  }

  /** Each part has one range that ends where the next one starts; the first starts at slot
      0, the last ends below `upto`. */
  ghost predicate InARow(parts: seq<Part>, upto: nat) {
    && StartOf(parts, 0) == 0
    && forall i :: 0 <= i < |parts| ==> Spans(parts, i, StartOf(parts, i), EndOf(parts, i, upto))
  }

  /** Consecutive ranges of the given sizes. */
  ghost predicate Laid(parts: seq<Part>, m: nat, upto: nat)
    requires m > 0
  {
    && Shared(parts, m) && CoversBelow(parts, upto) && InARow(parts, upto)
    && (|parts| == 0 ==> upto == 0)
    && (|parts| > 0 ==> Rooted(parts))
  }

  lemma OneRange(start: nat, share: nat)
    requires share > 0
    ensures var rl := [Range(start, start + share - 1)];
            && Canonical(rl) && Size(rl) == share
            && forall s: nat :: Cover(rl, s) == if start <= s < start + share then 1 else 0
  {
    var rl := [Range(start, start + share - 1)];
    EmptyList();
    assert rl[1..] == [];
  }

  lemma CoverOne(parts: seq<Part>, start: nat, share: nat)
    requires CoversBelow(parts, start) && share > 0
    ensures CoversBelow(parts + [Part(Some([Range(start, start + share - 1)]), [])], start + share)
  {
    var p := Part(Some([Range(start, start + share - 1)]), []);
    forall s: nat ensures StableCover(parts + [p], s) == if s < start + share then 1 else 0 {
      OneRange(start, share);
      SnocSums(parts, p, s, true);
    }
  }

  lemma LayOne(parts: seq<Part>, m: nat, start: nat, share: nat)
    requires m > 0 && Laid(parts, m, start) && share == Share(m, |parts|) && share > 0
    ensures Laid(parts + [Part(Some([Range(start, start + share - 1)]), [])], m, start + share)
  {
    hide Share, Size, Cover, Canonical, CoversBelow, InARow;
    OneRange(start, share);
    CoverOne(parts, start, share);
    RowOne(parts, start, share);
  }

  lemma NothingLaid(m: nat)
    requires m > 0
    ensures Laid([], m, 0)
  {
    EmptyList();
  }

  lemma RowOne(parts: seq<Part>, start: nat, share: nat)
    requires share > 0 && InARow(parts, start) && (parts == [] ==> start == 0)
    ensures InARow(parts + [Part(Some([Range(start, start + share - 1)]), [])], start + share)
  {
    var parts' := parts + [Part(Some([Range(start, start + share - 1)]), [])];
    assert parts != [] ==> parts'[0] == parts[0];
    forall i | 0 <= i < |parts'|
      ensures Spans(parts', i, StartOf(parts', i), EndOf(parts', i, start + share))
    {
      if i < |parts| {
        assert parts'[i] == parts[i];
        assert Spans(parts, i, StartOf(parts, i), EndOf(parts, i, start));
        assert i + 1 < |parts| ==> parts'[i + 1] == parts[i + 1];
      }
    }
  }

  lemma LaidBalanced(parts: seq<Part>, m: nat)
    requires 0 < m <= SLOT_NUM && m % 2 == 0 && |parts| == m && Shared(parts, m)
    ensures Balanced(parts, m)
  {
    hide Share, Canonical, Size;
    forall i | 0 <= i < |parts| ensures FinalSize(parts[i]) == Share(m, i) {
      assert Holding(parts[i], Share(m, i));
    }
  }

  lemma SharedIsGood(parts: seq<Part>, m: nat, epoch: nat)
    requires m > 0 && Shared(parts, m)
    ensures NoEntries(parts) && GoodParts(parts, epoch)
  {
    forall i | 0 <= i < |parts| ensures parts[i].entries == [] && GoodPart(parts[i], i, |parts|, epoch) {
      assert Holding(parts[i], Share(m, i));
    }
  }

  lemma CoverPartition(parts: seq<Part>)
    requires NoEntries(parts) && CoversBelow(parts, SLOT_NUM)
    ensures Partition(parts) && Twins(parts)
  {
    forall s: nat ensures StableCover(parts, s) + TaskCover(AllOuts(parts), s) == if s < SLOT_NUM then 1 else 0 {
      NoTasks(parts, s);
    }
    NoTasks(parts, 0);
  }

  lemma LaidIsGood(parts: seq<Part>, m: nat, epoch: nat)
    requires 0 < m <= SLOT_NUM && m % 2 == 0 && |parts| == m && Laid(parts, m, SLOT_NUM)
    ensures SlotsInv(parts, epoch) && Balanced(parts, m)
  {
    hide Shared, CoversBelow, Balanced, Partition, Twins, Rooted, GoodParts;
    LaidBalanced(parts, m);
    SharedIsGood(parts, m, epoch);
    CoverPartition(parts);
  }

  /** Range(16384, 16383) is turned round, so slot 16384 appears. */
  lemma ReversedRange(parts: seq<Part>)
    ensures Ranges.Normal(Range(SLOT_NUM, SLOT_NUM - 1)) == Range(SLOT_NUM - 1, SLOT_NUM)
    ensures StableCover(parts + [Part(Some([Range(SLOT_NUM - 1, SLOT_NUM)]), [])], SLOT_NUM) > 0
  {
    SnocSums(parts, Part(Some([Range(SLOT_NUM - 1, SLOT_NUM)]), []), SLOT_NUM, true);
  }

  /** What the loop has built: a proper layout while slots last, then a slot too many. */
  ghost predicate Built(parts: seq<Part>, m: nat, curr: nat)
    requires m > 0
  {
    && |parts| <= m && curr == ShareSum(m, 0, |parts|) && NoEntries(parts)
    && (Min(m, SLOT_NUM) >= |parts| ==> Laid(parts, m, curr))
    && (|parts| > SLOT_NUM ==> StableCover(parts, SLOT_NUM) > 0)
  }

  predicate Divides(m: nat, average: nat, remainder: nat)
    requires m > 0
  {
    average == SLOT_NUM / m && remainder == SLOT_NUM % m
  }

  /** One slot at least for each of the first 16384 masters, none for later ones. */
  lemma SizeOf(m: nat, i: nat, average: nat, remainder: nat)
    requires i < m && Divides(m, average, remainder)
    ensures var size := average + if i < remainder then 1 else 0;
            && size == Share(m, i)
            && (i < SLOT_NUM ==> size > 0)
            && (i >= SLOT_NUM ==> size == 0 && ShareSum(m, 0, i) == SLOT_NUM)
  {
    if m > SLOT_NUM {
      assert SLOT_NUM / m == 0 && SLOT_NUM % m == SLOT_NUM;
      ShareSumClosed(m, i);
    } else {
      SharePositive(m, i);
    }
  }

  lemma BuildOne(parts: seq<Part>, m: nat, average: nat, remainder: nat, curr: nat, end: nat)
    requires m > 0 && |parts| < m && Built(parts, m, curr) && Divides(m, average, remainder)
    requires end == curr + average + if |parts| < remainder then 1 else 0
    ensures end > 0
    ensures Built(parts + [Part(Some([Ranges.Normal(Range(curr, end - 1))]), [])], m, end)
  {
    hide Share, ShareSum, Laid, StableCover, Divides;
    ShareSumSnoc(m, 0, |parts|);
    SizeOf(m, |parts|, average, remainder);
    if |parts| < SLOT_NUM {
      LayOne(parts, m, curr, end - curr);
    } else {
      ReversedRange(parts);
    }
  }

  method Quotient(m: nat) returns (average: nat, remainder: nat)
    requires m > 0
    ensures Divides(m, average, remainder)
  {
    average := SLOT_NUM / m;
    Remainder(m);
    remainder := SLOT_NUM - average * m;
  }

  /** The slots of a new cluster of `m` masters are a balanced partition exactly when
      there is a slot for every master. */
  method CreateSlots(m: nat, ghost epoch: nat) returns (parts: seq<Part>)
    requires m > 0 && m % 2 == 0
    ensures |parts| == m && NoEntries(parts)
    ensures m <= SLOT_NUM ==> SlotsInv(parts, epoch) && Balanced(parts, m) && InARow(parts, SLOT_NUM)
    ensures m > SLOT_NUM ==> !Partition(parts)
  {
    var average, remainder := Quotient(m);
    NothingBuilt(m);
    hide *;
    parts := [];
    var curr, i := 0, 0;
    while i < m
      invariant 0 <= i <= m && 0 <= curr && |parts| == i && Built(parts, m, curr)
    {
      var r := if i < remainder then 1 else 0;
      var start, end := curr, curr + average + r;
      curr := end;
      BuildOne(parts, m, average, remainder, start, end);
      parts := parts + [Part(Some([Ranges.Normal(Range(start, end - 1))]), [])];
      i := i + 1;
    }
    AllBuilt(parts, m, curr, epoch);
  }

  lemma NothingBuilt(m: nat)
    requires m > 0
    ensures Built([], m, 0)
  {
    EmptyList();
  }

  lemma AllBuilt(parts: seq<Part>, m: nat, curr: nat, epoch: nat)
    requires m > 0 && m % 2 == 0 && |parts| == m && Built(parts, m, curr)
    ensures NoEntries(parts)
    ensures m <= SLOT_NUM ==> SlotsInv(parts, epoch) && Balanced(parts, m) && InARow(parts, SLOT_NUM)
    ensures m > SLOT_NUM ==> !Partition(parts)
  {
    hide Laid, SlotsInv, Balanced, InARow;
    if m <= SLOT_NUM {
      ShareTotal(m, m);
      LaidInARow(parts, m, curr);
      LaidIsGood(parts, m, epoch);
    } else {
      assert StableCover(parts, SLOT_NUM) + TaskCover(AllOuts(parts), SLOT_NUM) > 0;
    }
  }

  lemma LaidInARow(parts: seq<Part>, m: nat, upto: nat)
    requires m > 0 && Laid(parts, m, upto)
    ensures InARow(parts, upto)
  {
  }

  // ----- adding empty chunks -----

  function FreeParts(k: nat): (free: seq<Part>)
    ensures |free| == k && forall i :: 0 <= i < k ==> free[i] == Part(None, [])
  {
    seq(k, _ => Part(None, []))
  }

  lemma SnocFree(parts: seq<Part>, s: nat, m: bool)
    ensures StableCover(parts + [Part(None, [])], s) == StableCover(parts, s)
    ensures AllHalves(parts + [Part(None, [])], m) == AllHalves(parts, m)
  {
    SnocSums(parts, Part(None, []), s, m);
    assert AllHalves(parts, m) + [] == AllHalves(parts, m);
  }

  lemma FreeSnoc(parts: seq<Part>, k: nat)
    ensures parts + FreeParts(k + 1) == parts + FreeParts(k) + [Part(None, [])]
    ensures parts + FreeParts(0) == parts
  {
  }

  lemma {:induction false} FreeSums(parts: seq<Part>, k: nat, s: nat, m: bool)
    ensures StableCover(parts + FreeParts(k), s) == StableCover(parts, s)
    ensures AllHalves(parts + FreeParts(k), m) == AllHalves(parts, m)
  {
    hide *;
    if k == 0 {
      FreeSnoc(parts, 0);
    } else {
      var more := parts + FreeParts(k - 1);
      FreeSums(parts, k - 1, s, m);
      FreeSnoc(parts, k - 1);
      SnocFree(more, s, m);
    }
  }

  lemma FreeGood(parts: seq<Part>, k: nat, epoch: nat)
    requires GoodParts(parts, epoch)
    ensures GoodParts(parts + FreeParts(k), epoch)
  {
    var parts' := parts + FreeParts(k);
    forall i | 0 <= i < |parts'| ensures GoodPart(parts'[i], i, |parts'|, epoch) {
      assert i < |parts| ==> GoodPart(parts[i], i, |parts|, epoch);
    }
  }

  lemma FreePartition(parts: seq<Part>, k: nat)
    ensures Partition(parts + FreeParts(k)) <==> Partition(parts)
    ensures Twins(parts + FreeParts(k)) <==> Twins(parts)
  {
    var parts' := parts + FreeParts(k);
    forall s: nat
      ensures StableCover(parts', s) + TaskCover(AllOuts(parts'), s) ==
              StableCover(parts, s) + TaskCover(AllOuts(parts), s)
    {
      FreeSums(parts, k, s, true);
    }
    FreeSums(parts, k, 0, true);
    FreeSums(parts, k, 0, false);
  }

  /** New empty masters at the end keep the invariant and the balance target. */
  lemma AddFree(parts: seq<Part>, k: nat, epoch: nat)
    requires SlotsInv(parts, epoch) && k % 2 == 0
    ensures SlotsInv(parts + FreeParts(k), epoch)
    ensures forall target :: Balanced(parts, target) ==> Balanced(parts + FreeParts(k), target)
  {
    hide GoodParts, Partition, Twins, Balanced, FreeParts;
    FreeGood(parts, k, epoch);
    FreePartition(parts, k);
    forall target | Balanced(parts, target) ensures Balanced(parts + FreeParts(k), target) {
      FreeBalanced(parts, k, target);
    }
  }

  lemma FreeBalanced(parts: seq<Part>, k: nat, target: nat)
    requires Balanced(parts, target)
    ensures Balanced(parts + FreeParts(k), target)
  {
    var parts' := parts + FreeParts(k);
    EmptyList();
    forall i | 0 <= i < |parts'| ensures FinalSize(parts'[i]) == Share(target, i) {
      if i < |parts| {
        assert FinalSize(parts[i]) == Share(target, i);
      }
    }
  }

  // ----- deleting free chunks -----

  /** No slots and no migrations from master `k` on. */
  predicate FreeFrom(parts: seq<Part>, k: nat) {
    forall i :: k <= i < |parts| ==> parts[i] == Part(None, [])
  }

  predicate InUse(parts: seq<Part>, c: nat)
    requires 2 * c + 1 < |parts|
  {
    parts[2 * c].stable.Some? || parts[2 * c + 1].stable.Some?
  }

  lemma AtRest(parts: seq<Part>, epoch: nat) returns (target: nat)
    requires SlotsInv(parts, epoch) && NoEntries(parts)
    ensures 0 < target <= |parts| && target % 2 == 0 && Balanced(parts, target)
    ensures forall i :: 0 <= i < |parts| ==> (parts[i].stable.Some? <==> i < target)
  {
    target :| Balanced(parts, target);
    forall i | 0 <= i < |parts| ensures parts[i].stable.Some? <==> i < target {
      RestShares(parts, epoch, target, i);
    }
  }

  /** At rest the chunks with slots come first. */
  lemma UsedFirst(parts: seq<Part>, epoch: nat) returns (n: nat)
    requires SlotsInv(parts, epoch) && NoEntries(parts)
    ensures 0 < 2 * n <= |parts| && Balanced(parts, 2 * n)
    ensures forall c: nat :: 2 * c + 1 < |parts| ==> (InUse(parts, c) <==> c < n)
    ensures FreeFrom(parts, 2 * n) && forall i :: 0 <= i < 2 * n ==> parts[i].stable.Some?
  {
    hide Balanced, SlotsInv;
    var target := AtRest(parts, epoch);
    n := target / 2;
    assert target == 2 * n;
  }

  /** After `c` of the chunks, the first `n` of which are in use. */
  ghost predicate Retained(chunks: seq<Chunk>, parts: seq<Part>, n: nat, c: nat,
                           kept: seq<Chunk>, keptParts: seq<Part>, removed: seq<Chunk>)
    requires n <= |chunks| && c <= |chunks| && |parts| == 2 * |chunks|
  {
    && kept == chunks[..Min(c, n)] && keptParts == parts[..2 * Min(c, n)]
    && removed == if c <= n then [] else chunks[n..c]
  }

  lemma RetainOne(chunks: seq<Chunk>, parts: seq<Part>, n: nat, c: nat,
                  kept: seq<Chunk>, keptParts: seq<Part>, removed: seq<Chunk>)
    requires n <= |chunks| && c < |chunks| && |parts| == 2 * |chunks|
    requires Retained(chunks, parts, n, c, kept, keptParts, removed)
    ensures c < n ==> Retained(chunks, parts, n, c + 1,
                        kept + [chunks[c]], keptParts + [parts[2 * c], parts[2 * c + 1]], removed)
    ensures c >= n ==> Retained(chunks, parts, n, c + 1, kept, keptParts, removed + [chunks[c]])
  {
  }

  /** The chunks in use stay, in order; the others are removed. */
  method RetainUsed(chunks: seq<Chunk>, parts: seq<Part>, ghost epoch: nat)
    returns (kept: seq<Chunk>, keptParts: seq<Part>, removed: seq<Chunk>, ghost n: nat)
    requires SlotsInv(parts, epoch) && NoEntries(parts) && |parts| == 2 * |chunks|
    ensures 0 < n <= |chunks| && kept == chunks[..n] && keptParts == parts[..2 * n] && removed == chunks[n..]
    ensures FreeFrom(parts, 2 * n) && forall i :: 0 <= i < 2 * n ==> parts[i].stable.Some?
    ensures SlotsInv(keptParts, epoch) && NoEntries(keptParts)
  {
    hide SlotsInv, Balanced, NoEntries, InUse;
    n := UsedFirst(parts, epoch);
    kept, keptParts, removed := [], [], [];
    var c: nat := 0;
    while c < |chunks|
      invariant c <= |chunks| && Retained(chunks, parts, n, c, kept, keptParts, removed)
    {
      hide Retained;
      RetainOne(chunks, parts, n, c, kept, keptParts, removed);
      if InUse(parts, c) {
        kept, keptParts := kept + [chunks[c]], keptParts + [parts[2 * c], parts[2 * c + 1]];
      } else {
        removed := removed + [chunks[c]];
      }
      c := c + 1;
    }
    assert removed == chunks[n..];
    PrefixKeeps(parts, n, epoch);
  }

  /** Dropping the empty masters keeps the invariant. */
  lemma PrefixKeeps(parts: seq<Part>, n: nat, epoch: nat)
    requires SlotsInv(parts, epoch) && NoEntries(parts) && 0 < 2 * n <= |parts| && Balanced(parts, 2 * n)
    requires FreeFrom(parts, 2 * n)
    ensures SlotsInv(parts[..2 * n], epoch) && NoEntries(parts[..2 * n])
  {
    var parts' := parts[..2 * n];
    forall i | 0 <= i < |parts'| ensures GoodPart(parts'[i], i, |parts'|, epoch) {
      assert GoodPart(parts[i], i, |parts|, epoch);
    }
    assert parts == parts' + FreeParts(|parts| - 2 * n);
    hide GoodPart, Partition, Twins, Balanced, FreeParts;
    FreePartition(parts', |parts| - 2 * n);
    PrefixBalanced(parts, 2 * n);
  }

  lemma PrefixBalanced(parts: seq<Part>, target: nat)
    requires Balanced(parts, target)
    ensures Balanced(parts[..target], target)
  {
    forall i | 0 <= i < target ensures FinalSize(parts[..target][i]) == Share(target, i) {
      assert FinalSize(parts[i]) == Share(target, i);
    }
  }
}

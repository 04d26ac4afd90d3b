/** How the slots are shared out among masters: `m` masters get SLOT_NUM / m
    slots each and the first SLOT_NUM % m of them one more
    (src/broker/migrate.rs, src/broker/update.rs). */
module Shares {
  import opened Ranges

  /** The share of master `i` when `m` masters hold slots; a master past the
      first `m` holds none. */
  function Share(m: nat, i: nat): nat
    requires m > 0
  {
    if i >= m then 0 else SLOT_NUM / m + if i < SLOT_NUM % m then 1 else 0
  }

  ghost function ShareSum(m: nat, a: nat, b: nat): nat
    requires m > 0
    decreases b - a
  {
    if a >= b then 0 else Share(m, a) + ShareSum(m, a + 1, b)
  }

  lemma Remainder(m: nat)
    requires m > 0
    ensures SLOT_NUM - (SLOT_NUM / m) * m == SLOT_NUM % m
  {
  }

  lemma {:induction false} ShareSumSplit(m: nat, a: nat, b: nat, c: nat)
    requires m > 0 && a <= b <= c
    ensures ShareSum(m, a, c) == ShareSum(m, a, b) + ShareSum(m, b, c)
    decreases b - a
  {
    if a < b {
      ShareSumSplit(m, a + 1, b, c);
    }
  }

  lemma {:induction false} ShareSumSnoc(m: nat, a: nat, b: nat)
    requires m > 0 && a <= b
    ensures ShareSum(m, a, b + 1) == ShareSum(m, a, b) + Share(m, b)
  {
    ShareSumSplit(m, a, b, b + 1);
  }

  lemma {:induction false} ShareSumClosed(m: nat, b: nat)
    requires 0 < m && b <= m
    ensures ShareSum(m, 0, b) == (SLOT_NUM / m) * b + Min(b, SLOT_NUM % m)
  {
    if b > 0 {
      ShareSumClosed(m, b - 1);
      ShareSumSnoc(m, 0, b - 1);
      assert (SLOT_NUM / m) * b == (SLOT_NUM / m) * (b - 1) + SLOT_NUM / m;
    }
  }

  lemma {:induction false} ShareSumBeyond(m: nat, a: nat, b: nat)
    requires 0 < m <= a
    ensures ShareSum(m, a, b) == 0
    decreases b - a
  {
    if a < b {
      ShareSumBeyond(m, a + 1, b);
    }
  }

  /** The shares add up to the whole slot space. */
  lemma ShareTotal(m: nat, b: nat)
    requires 0 < m <= b
    ensures ShareSum(m, 0, b) == SLOT_NUM
  {
    ShareSumSplit(m, 0, m, b);
    ShareSumBeyond(m, m, b);
    ShareSumClosed(m, m);
    Remainder(m);
  }

  lemma QuotientAntitone(m0: nat, m1: nat, q0: nat, r0: nat, q1: nat, r1: nat)
    requires 0 < m0 <= m1 && r0 < m0 && r1 < m1
    requires q0 * m0 + r0 == q1 * m1 + r1
    ensures q1 <= q0
    ensures q1 == q0 ==> r1 <= r0
    ensures q1 == q0 && 0 < q0 && m0 < m1 ==> r1 < r0
  {
    MulMono(m0, m1, q1);
    MulCancel(q1, q0 + 1, m0);
    if q1 == q0 && 0 < q0 && m0 < m1 {
      MulMono(1, q0, m1 - m0);
    }
  }

  lemma DivAntitone(m0: nat, m1: nat)
    requires 0 < m0 <= m1
    ensures SLOT_NUM / m1 <= SLOT_NUM / m0
    ensures SLOT_NUM / m1 == SLOT_NUM / m0 ==> SLOT_NUM % m1 <= SLOT_NUM % m0
    ensures SLOT_NUM / m1 == SLOT_NUM / m0 && m0 < m1 <= SLOT_NUM ==> SLOT_NUM % m1 < SLOT_NUM % m0
  {
    QuotientAntitone(m0, m1, SLOT_NUM / m0, SLOT_NUM % m0, SLOT_NUM / m1, SLOT_NUM % m1);
    if m1 <= SLOT_NUM {
      assert SLOT_NUM / m1 >= 1;
    }
  }

  lemma MulCancel(a: nat, b: nat, m: nat)
    requires a * m < b * m
    ensures a < b
  {
    if b <= a {
      MulMono(b, a, m);
    }
  }

  lemma MulMono(a: nat, b: nat, m: nat)
    requires a <= b
    ensures a * m <= b * m
  {
  }

  /** Spreading the slots over more masters shrinks every share. */
  lemma ShareAntitone(m0: nat, m1: nat, i: nat)
    requires 0 < m0 <= m1 && i < m0
    ensures Share(m1, i) <= Share(m0, i)
  {
    DivAntitone(m0, m1);
  }

  lemma SharePositive(m: nat, i: nat)
    requires i < m <= SLOT_NUM
    ensures Share(m, i) > 0
  {
    assert SLOT_NUM / m >= 1;
  }

  /** The count law in closed form: share `i` is (SLOT_NUM - i) / m rounded up. */
  lemma ShareIsCeiling(m: nat, i: nat)
    requires i < m <= SLOT_NUM
    ensures Share(m, i) == (SLOT_NUM - i + m - 1) / m
  {
    var q, r := SLOT_NUM / m, SLOT_NUM % m;
    assert SLOT_NUM == q * m + r;
    var k := Share(m, i);
    var rest := SLOT_NUM - i + m - 1 - k * m;
    if i < r {
      assert k * m == q * m + m;
    } else {
      assert k * m == q * m;
    }
    DivUnique(SLOT_NUM - i + m - 1, m, k, rest);
  }

  lemma DivUnique(x: nat, m: nat, k: nat, rest: nat)
    requires m > 0 && x == k * m + rest && rest < m
    ensures x / m == k
  {
    var q := x / m;
    assert q * m <= x < (q + 1) * m;
    assert k * m <= x < (k + 1) * m;
    MulCancel(q, k + 1, m);
    MulCancel(k, q + 1, m);
  }

  /** The final count the scale-out planner computes for master `i` of `m`,
      which may be more masters than there are slots. */
  lemma FinalIsShare(m: nat, i: nat)
    requires m > 0
    ensures i < m ==> SLOT_NUM / m + (if i < SLOT_NUM % m then 1 else 0) == Share(Min(m, SLOT_NUM), i)
  {
    if m > SLOT_NUM {
      assert SLOT_NUM / m == 0 && SLOT_NUM % m == SLOT_NUM;
    }
  }

  // ----- what a shrinking cluster's survivors still need -----

  /** The slots surviving master `j` lacks when `old` masters become `m`. */
  function Lack(old_: nat, m: nat, j: nat): nat
    requires 0 < m <= old_
  {
    if j < m then
      ShareAntitone(m, old_, j);
      Share(m, j) - Share(old_, j)
    else 0
  }

  ghost function LackSum(old_: nat, m: nat, a: nat): nat
    requires 0 < m <= old_
    decreases m - a
  {
    if a >= m then 0 else Lack(old_, m, a) + LackSum(old_, m, a + 1)
  }

  lemma {:induction false} LackSumIsDifference(old_: nat, m: nat, a: nat)
    requires 0 < m <= old_ && a <= m
    ensures LackSum(old_, m, a) == ShareSum(m, a, m) - ShareSum(old_, a, m)
    decreases m - a
  {
    if a < m {
      LackSumIsDifference(old_, m, a + 1);
    }
  }

  /** What the survivors lack is what the leaving masters hold. */
  lemma LackTotal(old_: nat, m: nat)
    requires 0 < m <= old_
    ensures LackSum(old_, m, 0) == ShareSum(old_, m, old_)
  {
    LackSumIsDifference(old_, m, 0);
    ShareTotal(m, m);
    ShareTotal(old_, old_);
    ShareSumSplit(old_, 0, m, old_);
  }

  /** No survivor that is already full comes before one that still lacks slots.
      The scale-down planner is right exactly under this condition: it has no
      case for a destination that needs nothing. */
  ghost predicate NoFullBeforeLacking(old_: nat, m: nat)
    requires 0 < m <= old_
  {
    forall j, k :: 0 <= j < k < m && Lack(old_, m, j) == 0 ==> Lack(old_, m, k) == 0
  }

  /** The same condition as a test on quotients and remainders that a caller can
      make before scaling down. */
  predicate ScaleDownSafe(old_: nat, m: nat)
    requires 0 < m < old_
  {
    var q0, r0, q1, r1 := SLOT_NUM / old_, SLOT_NUM % old_, SLOT_NUM / m, SLOT_NUM % m;
    if q1 == q0 then r0 == 0
    else q1 > q0 + 1 || r0 <= r1 || m <= r0
  }

  lemma SafeShape(m: nat, q0: nat, r0: nat, q1: nat, r1: nat, lack: nat -> int)
    requires q0 <= q1 && r1 < m && (q0 == q1 ==> r0 < r1)
    requires forall j: nat :: j < m ==>
                lack(j) == q1 - q0 + (if j < r1 then 1 else 0) - (if j < r0 then 1 else 0)
    ensures (if q1 == q0 then r0 == 0 else q1 > q0 + 1 || r0 <= r1 || m <= r0) <==>
            forall j: nat, k: nat :: j < k < m && lack(j) == 0 ==> lack(k) == 0
  {
    if q1 == q0 && r0 > 0 {
      assert lack(0) == 0 && lack(r0) == 1;
    } else if q1 == q0 + 1 && r1 < r0 < m {
      assert lack(r1) == 0 && lack(r0) == 1;
    }
  }

  lemma ScaleDownSafeExact(old_: nat, m: nat)
    requires 0 < m < old_ <= SLOT_NUM
    ensures ScaleDownSafe(old_, m) <==> NoFullBeforeLacking(old_, m)
  {
    DivAntitone(m, old_);
    var lack := (j: nat) => Lack(old_, m, j) as int;
    SafeShape(m, SLOT_NUM / old_, SLOT_NUM % old_, SLOT_NUM / m, SLOT_NUM % m, lack);
    assert forall j: nat :: lack(j) == Lack(old_, m, j);
  }

  /** A sufficient condition without remainders: every survivor gains a slot. */
  lemma ScaleDownSafeByProduct(old_: nat, m: nat)
    requires 0 < m < old_ <= SLOT_NUM
    requires (SLOT_NUM - m + 1) * (old_ - m) >= m * old_
    ensures forall j :: 0 <= j < m ==> Lack(old_, m, j) > 0
    ensures ScaleDownSafe(old_, m)
  {
    forall j | 0 <= j < m ensures Lack(old_, m, j) > 0 {
      LackByProduct(old_, m, j);
    }
    ScaleDownSafeExact(old_, m);
  }

  lemma LackByProduct(old_: nat, m: nat, j: nat)
    requires 0 < m < old_ <= SLOT_NUM && j < m
    requires (SLOT_NUM - m + 1) * (old_ - m) >= m * old_
    ensures Lack(old_, m, j) > 0
  {
    var x, k := SLOT_NUM - j, Share(old_, j);
    ShareIsCeiling(m, j);
    ShareIsCeiling(old_, j);
    MulMono(SLOT_NUM - m + 1, x, old_ - m);
    CeilingStep(x, old_, m, k);
    MulCancel(k, (x + m - 1) / m, m);
  }

  lemma CeilingStep(x: nat, old_: nat, m: nat, k: nat)
    requires 0 < m < old_ && 0 < x && k == (x + old_ - 1) / old_
    requires x * (old_ - m) >= m * old_
    ensures k * m < ((x + m - 1) / m) * m
  {
    var z := x + m - 1;
    assert (z / m) * m >= x;
    var l := k * old_;
    assert l <= x + old_ - 1 && (k * m) * old_ == l * m;
    if k * m >= x {
      MulMono(x, k * m, old_);
      MulMono(l, x + old_ - 1, m);
      assert false;
    }
  }

  /** Going from 184 to 182 masters meets a full survivor first. */
  lemma ScaleDownUnsafeExample()
    ensures !ScaleDownSafe(184, 182)
    ensures Lack(184, 182, 4) == 0 && Lack(184, 182, 8) == 1
  {
  }
}

/** What repeated refills do to one deficit in `i64` arithmetic: how many a head needs, and whether any
    number of them is enough. */
module Refills {
  import opened Types

  /** The deficit after `k` refills. */
  function After(deficit: int, quantum: int, k: nat): int {
    WrapI64(deficit + quantum * k)
  }

  /** Some number of refills makes a head of charge `cost` affordable. */
  ghost predicate Payable(cost: int, deficit: int, quantum: int) {
    exists k: nat :: After(deficit, quantum, k) >= cost
  }

  ghost predicate FirstAt(cost: int, deficit: int, quantum: int, r: nat) {
    After(deficit, quantum, r) >= cost && forall j: nat :: j < r ==> After(deficit, quantum, j) < cost
  }

  lemma {:induction false} FirstExists(cost: int, deficit: int, quantum: int, k: nat)
    requires After(deficit, quantum, k) >= cost
    ensures exists r: nat :: FirstAt(cost, deficit, quantum, r)
  {
    hide After;
    if j: nat :| j < k && After(deficit, quantum, j) >= cost {
      FirstExists(cost, deficit, quantum, j);
    } else {
      assert FirstAt(cost, deficit, quantum, k);
    }
  }

  /** How many refills a head of charge `cost` still needs. */
  ghost function Rounds(cost: int, deficit: int, quantum: int): (r: nat)
    requires Payable(cost, deficit, quantum)
    ensures FirstAt(cost, deficit, quantum, r)
  {
    var k: nat :| After(deficit, quantum, k) >= cost;
    FirstExists(cost, deficit, quantum, k);
    var r: nat :| FirstAt(cost, deficit, quantum, r);
    r
  }

  lemma AfterOneMore(deficit: int, quantum: int, k: nat)
    ensures After(WrapI64(deficit + quantum), quantum, k) == After(deficit, quantum, k + 1)
  {
    WrapTwice(deficit + quantum, quantum * k);
    assert quantum * (k + 1) == quantum + quantum * k;
  }

  lemma AfterNone(deficit: int, quantum: int)
    requires I64_MIN <= deficit <= I64_MAX
    ensures After(deficit, quantum, 0) == deficit
  {
    assert quantum * 0 == 0;
  }

  /** A refill of a head that cannot be paid yet uses up one of the rounds it needs, and leaves a head
      that could never be paid as it was. */
  lemma RoundsStep(cost: int, deficit: int, quantum: int)
    requires I64_MIN <= deficit < cost <= I64_MAX
    ensures Payable(cost, deficit, quantum) <==> Payable(cost, WrapI64(deficit + quantum), quantum)
    ensures Payable(cost, deficit, quantum) ==>
              Rounds(cost, deficit, quantum) == 1 + Rounds(cost, WrapI64(deficit + quantum), quantum)
  {
    hide After;
    var next := WrapI64(deficit + quantum);
    AfterNone(deficit, quantum);
    if Payable(cost, deficit, quantum) {
      var r := Rounds(cost, deficit, quantum);
      AfterOneMore(deficit, quantum, r - 1);
      forall j: nat | j < r - 1 ensures After(next, quantum, j) < cost {
        AfterOneMore(deficit, quantum, j);
      }
      assert FirstAt(cost, next, quantum, r - 1);
      FirstIsUnique(cost, next, quantum, r - 1, Rounds(cost, next, quantum));
    }
    if k: nat :| After(next, quantum, k) >= cost {
      AfterOneMore(deficit, quantum, k);
    }
  }

  lemma FirstIsUnique(cost: int, deficit: int, quantum: int, a: nat, b: nat)
    requires FirstAt(cost, deficit, quantum, a) && FirstAt(cost, deficit, quantum, b)
    ensures a == b
  {
  }

  lemma PaidNow(cost: int, deficit: int, quantum: int)
    requires I64_MIN <= deficit <= I64_MAX && deficit >= cost
    ensures Payable(cost, deficit, quantum) && Rounds(cost, deficit, quantum) == 0
  {
    AfterNone(deficit, quantum);
    assert After(deficit, quantum, 0) >= cost;
  }

  /** While charge and quantum leave room in an `i64`, the rounds are the ceiling of the shortage over the
      quantum. */
  lemma {:induction false} RoundsIsCeiling(cost: int, deficit: int, quantum: nat)
    requires quantum >= 1 && cost - 1 + quantum <= I64_MAX && I64_MIN <= deficit <= I64_MAX
    ensures Payable(cost, deficit, quantum)
    ensures var r := Rounds(cost, deficit, quantum);
            && r * quantum >= cost - deficit
            && (r > 0 ==> (r - 1) * quantum < cost - deficit)
    decreases cost - deficit
  {
    hide WrapI64, Payable, Rounds;
    if deficit < cost {
      RoundsIsCeiling(cost, deficit + quantum, quantum);
      RoundsStep(cost, deficit, quantum);
      var r := Rounds(cost, deficit, quantum);
      assert r * quantum == (r - 1) * quantum + quantum;
      if r > 1 {
        assert (r - 1) * quantum == (r - 2) * quantum + quantum;
      }
    } else {
      PaidNow(cost, deficit, quantum);
    }
  }

  // ---------------------------------------------------------------- when no number of refills is enough

  function Pow2(n: nat): nat {
    if n == 0 then 1 else 2 * Pow2(n - 1)
  }

  /** The largest power of two that divides `q`. */
  function LowBit(q: nat): (g: nat)
    requires q > 0
    ensures g > 0
  {
    if q % 2 == 1 then 1 else 2 * LowBit(q / 2)
  }

  /** The highest deficit that refills of `quantum` can ever reach from `deficit`. */
  function Peak(deficit: int, quantum: nat): int
    requires quantum > 0
  {
    I64_MAX - (I64_MAX - deficit) % LowBit(quantum)
  }

  lemma {:induction false} LowBitSplits(q: nat, n: nat) returns (odd: nat, e: nat)
    requires 0 < q < Pow2(n)
    ensures odd % 2 == 1 && q == LowBit(q) * odd && e < n && LowBit(q) == Pow2(e)
  {
    if q % 2 == 1 {
      odd, e := q, 0;
    } else {
      odd, e := LowBitSplits(q / 2, n - 1);
      e := e + 1;
      assert q == 2 * (q / 2);
    }
  }

  lemma {:induction false} Pow2Splits(a: nat, b: nat)
    ensures Pow2(a + b) == Pow2(a) * Pow2(b)
  {
    if a > 0 {
      Pow2Splits(a - 1, b);
    }
  }

  lemma TwoTo64()
    ensures Pow2(64) == TWO_64
  {
    assert Pow2(4) == 16;
    Pow2Splits(4, 4);
    Pow2Splits(8, 8);
    Pow2Splits(16, 16);
    Pow2Splits(32, 32);
  }

  lemma Spread(a: int, b: int, c: int)
    ensures a * (b + c) == a * b + a * c
  {
  }

  lemma Regroup(a: int, b: int, c: int)
    ensures a * b * c == a * (b * c)
  {
  }

  lemma AtLeastOnce(g: nat, d: nat)
    requires d >= 1
    ensures g * d >= g
  {
    Spread(g, d - 1, 1);
    Product(g, d - 1);
  }

  lemma Product(a: nat, b: nat)
    ensures a * b >= 0
  {
  }

  /** An odd number has an inverse modulo every power of two. */
  lemma {:induction false} OddInverse(odd: nat, n: nat) returns (i: nat, z: nat)
    requires odd % 2 == 1
    ensures odd * i == 1 + Pow2(n) * z
  {
    if n == 0 {
      i, z := 1, odd - 1;
    } else {
      i, z := OddInverse(odd, n - 1);
      var h := Pow2(n - 1);
      if z % 2 == 0 {
        Halve(h, z);
        z := z / 2;
      } else {
        Spread(odd, i, h);
        Spread(h, z, odd);
        Halve(h, z + odd);
        i, z := i + h, (z + odd) / 2;
      }
    }
  }

  lemma Halve(h: nat, z: nat)
    requires z % 2 == 0
    ensures h * z == 2 * h * (z / 2)
  {
    var y := z / 2;
    assert z == 2 * y;
    Regroup(h, 2, y);
  }

  lemma ModShift(x: int, g: nat, k: int)
    requires g > 0
    ensures (x + g * k) % g == x % g
  {
    var y := x + g * k;
    var d := y / g - (x / g + k);
    Spread(g, x / g, k);
    Spread(g, d, x / g + k);
    assert g * d == x % g - y % g;
    if d >= 1 {
      AtLeastOnce(g, d);
    } else if d <= -1 {
      AtLeastOnce(g, -d);
      Spread(g, d, -d);
    }
  }

  lemma MultiplesOfBit(g: nat, odd: nat, rest: nat, quantum: nat, z: int, k: nat)
    requires quantum == g * odd && TWO_64 == g * rest
    ensures TWO_64 * z - quantum * k == g * (rest * z - odd * k)
  {
    Regroup(g, rest, z);
    Regroup(g, odd, k);
    Spread(g, rest * z, 0 - odd * k);
    Spread(g, odd * k, 0 - odd * k);
  }

  /** No refill ever lifts the deficit above its peak. */
  lemma NeverAbovePeak(deficit: int, quantum: nat, k: nat)
    requires 0 < quantum <= U64_MAX
    ensures After(deficit, quantum, k) <= Peak(deficit, quantum)
  {
    TwoTo64();
    var odd, e := LowBitSplits(quantum, 64);
    var g, rest := LowBit(quantum), Pow2(64 - e);
    Pow2Splits(e, 64 - e);
    var x := deficit + quantum * k;
    var z := (x - I64_MIN) / TWO_64;
    MultiplesOfBit(g, odd, rest, quantum, z, k);
    var room := I64_MAX - After(deficit, quantum, k);
    assert room == I64_MAX - deficit + g * (rest * z - odd * k);
    ModShift(I64_MAX - deficit, g, rest * z - odd * k);
    AtLeastRemainder(room, g);
  }

  lemma Divided(x: nat, g: nat)
    requires g > 0
    ensures g * (x / g) == x - x % g
  {
  }

  lemma AtLeastRemainder(x: nat, g: nat)
    requires g > 0
    ensures x >= x % g
  {
  }

  lemma ReachingPeak(g: nat, odd: nat, i: nat, z: nat, m: nat)
    requires odd * i == 1 + TWO_64 * z
    ensures g * odd * (i * m) == g * m + TWO_64 * (z * (g * m))
  {
    Regroup(g, odd, i * m);
    Regroup(odd, i, m);
    assert odd * (i * m) == (1 + TWO_64 * z) * m;
    Regroup(TWO_64, z, m);
    Spread(m, 1, TWO_64 * z);
    assert odd * (i * m) == m + TWO_64 * (z * m);
    Spread(g, m, TWO_64 * (z * m));
    assert g * (TWO_64 * (z * m)) == TWO_64 * (z * (g * m)) by { Swap(g, z, m); }
  }

  lemma Swap(g: nat, z: nat, m: nat)
    ensures g * (TWO_64 * (z * m)) == TWO_64 * (z * (g * m))
  {
    Regroup(g, TWO_64, z * m);
    Regroup(TWO_64, g, z * m);
    Regroup(g, z, m);
    Regroup(z, g, m);
  }

  /** Some number of refills lifts the deficit exactly to its peak. */
  lemma PeakIsReached(deficit: int, quantum: nat) returns (k: nat)
    requires 0 < quantum <= U64_MAX && I64_MIN <= deficit <= I64_MAX
    ensures After(deficit, quantum, k) == Peak(deficit, quantum)
  {
    TwoTo64();
    hide WrapI64, Pow2, LowBit;
    var odd, e := LowBitSplits(quantum, 64);
    var g, peak := LowBit(quantum), Peak(deficit, quantum);
    var i, z := OddInverse(odd, 64);
    var m := (I64_MAX - deficit) / g;
    k := i * m;
    var room, climb := I64_MAX - deficit, g * m;
    assert climb == peak - deficit by { Divided(room, g); }
    assert quantum * k == climb + TWO_64 * (z * climb) by { ReachingPeak(g, odd, i, z, m); }
    AtLeastRemainder(room, g);
    WrapShift(peak, z * climb);
  }

  lemma WrapIs(x: int)
    ensures WrapI64(x) == x - TWO_64 * ((x - I64_MIN) / TWO_64)
  {
  }

  lemma WrapShift(x: int, k: int)
    ensures WrapI64(x + TWO_64 * k) == WrapI64(x)
  {
    WrapTimes(x - I64_MIN, k);
  }

  /** The `u64` whose cast a quantum is. */
  function AsU64(quantum: int): (u: nat)
    ensures u <= U64_MAX
  {
    quantum % TWO_64
  }

  lemma CastBack(u: nat)
    requires u <= U64_MAX
    ensures AsU64(WrapI64(u)) == u
  {
  }

  /** Refilling by the cast quantum is refilling by the configured one. */
  lemma CastIsSame(deficit: int, quantum: int, k: nat)
    ensures After(deficit, quantum, k) == After(deficit, AsU64(quantum), k)
  {
    hide WrapI64;
    var u, y := AsU64(quantum), quantum / TWO_64;
    assert quantum * k == u * k + TWO_64 * (y * k) by {
      Spread(k, u, TWO_64 * y);
      Regroup(TWO_64, y, k);
    }
    WrapShift(deficit + u * k, y * k);
  }

  /** Exactly which heads can be paid at all: those whose charge is at most I64_MAX - (I64_MAX - deficit) % g,
      g being the largest power of two that divides the configured quantum. */
  lemma PayableExactly(cost: int, deficit: int, quantum: int)
    requires AsU64(quantum) > 0 && I64_MIN <= deficit <= I64_MAX
    ensures Payable(cost, deficit, quantum) <==> cost <= Peak(deficit, AsU64(quantum))
  {
    hide Peak, After, AsU64;
    var u := AsU64(quantum);
    if k: nat :| After(deficit, quantum, k) >= cost {
      CastIsSame(deficit, quantum, k);
      NeverAbovePeak(deficit, u, k);
    }
    if cost <= Peak(deficit, u) {
      var k := PeakIsReached(deficit, u);
      CastIsSame(deficit, quantum, k);
      assert After(deficit, quantum, k) >= cost;
    }
  }
}

/** The public types of the scheduler and the integer widths it relies on. */
module Types {
  datatype Option<+T> = None | Some(value: T)

  const U64_MAX: nat := 0xFFFF_FFFF_FFFF_FFFF
  const I64_MAX: nat := 0x7FFF_FFFF_FFFF_FFFF

  const I64_MIN: int := -0x8000_0000_0000_0000
  const TWO_64: nat := 0x1_0000_0000_0000_0000

  /** The `i64` a sum or a cast wraps around to. */
  function WrapI64(x: int): (r: int)
    ensures I64_MIN <= r <= I64_MAX
    ensures I64_MIN <= x <= I64_MAX ==> r == x
  {
    (x - I64_MIN) % TWO_64 + I64_MIN
  }

  /** Wrapping early or late makes no difference. */
  lemma WrapTwice(a: int, b: int)
    ensures WrapI64(WrapI64(a) + b) == WrapI64(a + b)
  {
    var x := a - I64_MIN;
    assert x == TWO_64 * (x / TWO_64) + x % TWO_64;
    WrapTimes(x % TWO_64 + b, x / TWO_64);
  }

  lemma WrapTimes(x: int, k: int)
    ensures (x + TWO_64 * k) % TWO_64 == x % TWO_64
  {
    var q, r := x / TWO_64, x % TWO_64;
    assert x + TWO_64 * k == TWO_64 * (q + k) + r;
  }

  /** `u64::saturating_sub`. */
  function SatSub(a: nat, b: nat): nat {
    if a >= b then a - b else 0
  }

  /** `u64::saturating_add`. */
  function SatAdd(a: nat, b: nat): nat {
    if a + b <= U64_MAX then a + b else U64_MAX
  }

  function Min(a: nat, b: nat): nat {
    if a <= b then a else b
  }

  function Max(a: int, b: int): int {
    if a >= b then a else b
  }

  lemma TimesMonotone(x: nat, y: nat, k: nat)
    requires x <= y
    ensures x * k <= y * k
  {
  }

  /** A ceiling is the least multiplier that reaches. */
  lemma CeilingIsLeast(share: nat, den: nat)
    requires den > 0
    ensures var r := (share + den - 1) / den;
            (r - 1) * den < share <= r * den
  {
    var top, r := share + den - 1, (share + den - 1) / den;
    assert top == r * den + top % den;
    assert (r - 1) * den == r * den - den;
  }

  type Tenant = nat
  type Id = nat
  type Time = int

  datatype Priority = High | Normal | Low {
    /** Position in dequeue order. */
    function Index(): nat {
      match this case High => 0 case Normal => 1 case Low => 2
    }
  }

  /** A fixed array with one slot per priority. */
  datatype Three<T> = Three(high: T, normal: T, low: T) {
    function At(p: Priority): T {
      match p case High => high case Normal => normal case Low => low
    }

    function With(p: Priority, v: T): Three<T> {
      match p
      case High => this.(high := v)
      case Normal => this.(normal := v)
      case Low => this.(low := v)
    }
  }

  datatype Task = Task(payload: int, enqueueTs: Time, deadline: Option<Time>, priority: Priority, cost: nat)

  datatype Entry = Entry(id: Id, task: Task)
}

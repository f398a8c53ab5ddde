/** Rounding a requested queue capacity to the power of two the ring uses. */
module Capacity {
  import opened Word

  const MIN_BITS := 2

  /** The exponent the rounding loop ends on when it starts from exponent k. */
  function BitsFrom(w: nat, n: nat, k: nat): nat
    decreases w - k
  {
    if k + 2 >= w || n <= Pow2(k) then k else BitsFrom(w, n, k + 1)
  }

  /** log2 of the capacity of a queue of w-bit counters that was asked for n events. */
  function CapacityBits(w: nat, n: nat): nat {
    BitsFrom(w, n, MIN_BITS)
  }

  lemma {:induction false} BitsFromLeast(w: nat, n: nat, k: nat)
    requires k + 2 <= w
    ensures k <= BitsFrom(w, n, k) <= w - 2
    ensures n <= Pow2(BitsFrom(w, n, k)) || BitsFrom(w, n, k) == w - 2
    ensures forall j | k <= j < BitsFrom(w, n, k) :: Pow2(j) < n
    decreases w - k
  {
    if k + 2 < w && Pow2(k) < n {
      BitsFromLeast(w, n, k + 1);
    }
  }

  /** The capacity is the least power of two >= n, kept within [4, 2^(w-2)]. */
  lemma CapacityIsLeast(w: nat, n: nat, k: nat)
    requires w >= 4 && 2 <= k <= w - 2
    ensures 2 <= CapacityBits(w, n) <= w - 2
    ensures n <= Pow2(w - 2) ==> n <= Pow2(CapacityBits(w, n))
    ensures n <= Pow2(k) ==> Pow2(CapacityBits(w, n)) <= Pow2(k)
    ensures n >= Pow2(w - 2) ==> CapacityBits(w, n) == w - 2
    ensures CapacityBits(w, Pow2(k)) == k
  {
    BitsFromLeast(w, n, 2);
    BitsFromLeast(w, Pow2(k), 2);
    var c, d := CapacityBits(w, n), CapacityBits(w, Pow2(k));
    if k < c { assert Pow2(k) < n; } else { Pow2Monotone(c, k); }
    if c < w - 2 { Pow2Monotone(c, w - 2); }
    if d < k { Pow2Monotone(d, k); }
  }

  /** The doubling loop. `power *= 2` wraps at the width of size_t, and never does. */
  method To2Pow(w: nat, sizeBits: nat, n: nat) returns (r: nat)
    requires 4 <= w <= sizeBits && n < Pow2(sizeBits)
    ensures r == Pow2(CapacityBits(w, n))
  {
    BitsFromLeast(w, n, MIN_BITS);
    assert Pow2(2) == 4;
    if n <= 4 {
      return 4;
    }
    var max := Pow2(w - 2);
    if n >= max {
      CapacityIsLeast(w, n, 2);
      return max;
    }
    var power := 4;
    ghost var k := 2;
    while power < n
      invariant 2 <= k <= w - 2 && power == Pow2(k)
      invariant CapacityBits(w, n) == BitsFrom(w, n, k)
      decreases w - k
    {
      NoOverflow(w, sizeBits, k);
      power := (power * 2) % Pow2(sizeBits);
      k := k + 1;
    }
    Pow2Monotone(k, w - 2);
    r := if power < max then power else max;
  }

  lemma NoOverflow(w: nat, sizeBits: nat, k: nat)
    requires 4 <= w <= sizeBits && k < w - 2
    ensures (Pow2(k) * 2) % Pow2(sizeBits) == Pow2(k + 1)
  {
    Pow2Monotone(k + 1, sizeBits);
    SmallMod(Pow2(k) * 2, Pow2(sizeBits));
  }

  /**
   A slab pool of n + 1 slabs beside a queue asked for n events: the pool is larger than
   the queue exactly when rounding did not enlarge the queue.
   */
  lemma PoolExceedsQueue(w: nat, n: nat)
    requires w >= 4
    ensures n + 1 > Pow2(CapacityBits(w, n)) <==>
            (n >= Pow2(w - 2) || exists k :: 2 <= k <= w - 2 && n == Pow2(k))
  {
    CapacityIsLeast(w, n, 2);
    var c := CapacityBits(w, n);
    if n >= Pow2(w - 2) {
    } else if k :| 2 <= k <= w - 2 && n == Pow2(k) {
      CapacityIsLeast(w, n, k);
    } else if n + 1 > Pow2(c) {
      assert n == Pow2(c);
    }
  }

  /** The logger asks for 4096 events on 64-bit counters: the queue keeps 4096, the pool has 4097. */
  lemma LoggerPool()
    ensures CapacityBits(64, 4096) == 12 && Pow2(12) == 4096
  {
    assert Pow2(6) == 64;
    Pow2Add(6, 6);
    CapacityIsLeast(64, 4096, 12);
  }
}

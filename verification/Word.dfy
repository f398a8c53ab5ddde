/**
 Unsigned machine words of any width `w`, as the channels use them: wrapping
 increments, the `&` masks, and the marker values derived from the width.
 */
module Word {

  function Pow2(k: nat): (r: nat)
    ensures r >= 1
    ensures k >= 1 ==> r % 2 == 0
  {
    if k == 0 then 1 else 2 * Pow2(k - 1)
  }

  /** Bitwise `x & y`, bit by bit from the low end. */
  function BitAnd(x: nat, y: nat): nat {
    if x == 0 || y == 0 then 0 else (x % 2) * (y % 2) + 2 * BitAnd(x / 2, y / 2)
  }

  /** `x++` on a w-bit counter. */
  function Inc(w: nat, x: nat): nat {
    (x + 1) % Pow2(w)
  }

  /** `x--`, which is also what fetch_sub(1) stores, on a w-bit counter. */
  function Dec(w: nat, x: nat): nat {
    (x + Pow2(w) - 1) % Pow2(w)
  }

  /** The largest w-bit value: the sequence number of an empty cell. */
  function Dummy(w: nat): nat {
    Pow2(w) - 1
  }

  /** The number a writer publishes, and a reader waits for: `x & (max >> 1)`. */
  function Published(w: nat, x: nat): nat {
    BitAnd(x, Dummy(w) / 2)
  }

  /** The bucket of a sequence number: `x & (capacity - 1)`. */
  function Index(cap: nat, x: nat): nat
    requires cap >= 1
  {
    BitAnd(x, cap - 1)
  }

  lemma {:induction false} MaskIsMod(x: nat, k: nat)
    ensures BitAnd(x, Pow2(k) - 1) == x % Pow2(k)
  {
    if k == 0 {
      assert x % 1 == 0;
    } else {
      var p := Pow2(k - 1);
      MaskIsMod(x / 2, k - 1);
      HalfMask(p);
      ModDouble(x, p);
    }
  }

  lemma HalfMask(p: nat)
    requires p >= 1
    ensures (2 * p - 1) / 2 == p - 1 && (2 * p - 1) % 2 == 1
  {
  }

  lemma ModDouble(x: nat, p: nat)
    requires p >= 1
    ensures x % (2 * p) == x % 2 + 2 * ((x / 2) % p)
  {
    var q, r := (x / 2) / p, (x / 2) % p;
    assert x == 2 * (q * p + r) + x % 2;
    assert x == q * (2 * p) + (2 * r + x % 2) by { assert 2 * (q * p) == q * (2 * p); }
    DivModUnique(x, 2 * p, q, 2 * r + x % 2);
  }

  lemma SmallMod(x: nat, d: nat)
    requires x < d
    ensures x % d == x
  {
  }

  lemma ModAtMost(x: nat, d: nat)
    requires d >= 1
    ensures x % d <= x
  {
    if x < d { SmallMod(x, d); }
  }

  lemma DivModUnique(x: nat, d: nat, q: nat, r: nat)
    requires d >= 1 && r < d && x == q * d + r
    ensures x / d == q && x % d == r
  {
    var q', r' := x / d, x % d;
    assert x == q' * d + r';
    assert (q - q') * d == r' - r;
    if q > q' {
      assert (q - q') * d >= d by { MulAtLeast(q - q', d); }
    } else if q < q' {
      assert (q' - q) * d >= d by { MulAtLeast(q' - q, d); }
    }
  }

  lemma MulAtLeast(a: nat, d: nat)
    requires a >= 1
    ensures a * d >= d
  {
    assert a * d == d + (a - 1) * d;
  }

  lemma MulAssoc(a: nat, b: nat, c: nat)
    ensures a * (b * c) == (a * b) * c
  {
  }

  lemma AddMultiple(x: nat, d: nat, k: nat)
    requires d >= 1
    ensures (x + k * d) % d == x % d
  {
    var q, r := x / d, x % d;
    assert x + k * d == (q + k) * d + r;
    DivModUnique(x + k * d, d, q + k, r);
  }

  lemma {:induction false} Pow2Add(a: nat, b: nat)
    ensures Pow2(a + b) == Pow2(a) * Pow2(b)
  {
    if a == 0 {
    } else {
      Pow2Add(a - 1, b);
      MulAssoc(2, Pow2(a - 1), Pow2(b));
    }
  }

  lemma {:induction false} Pow2Monotone(a: nat, b: nat)
    requires a <= b
    ensures Pow2(a) <= Pow2(b)
    ensures a < b ==> 2 * Pow2(a) <= Pow2(b)
  {
    if a < b {
      Pow2Monotone(a, b - 1);
    }
  }

  lemma DivModIdentity(x: nat, e: nat)
    requires e >= 1
    ensures x == x % e + (x / e) * e
  {
  }

  lemma ModOfMultiple(x: nat, k: nat, d: nat, e: nat)
    requires d >= 1 && e >= 1 && e == k * d
    ensures (x % e) % d == x % d
  {
    var q, r := x / e, x % e;
    DivModIdentity(x, e);
    MulAssoc(q, k, d);
    AddMultiple(r, d, q * k);
  }

  /** Reducing to a wide word first loses nothing the narrow word keeps. */
  lemma ModMod(x: nat, a: nat, b: nat)
    requires a <= b
    ensures (x % Pow2(b)) % Pow2(a) == x % Pow2(a)
  {
    Pow2Add(b - a, a);
    ModOfMultiple(x, Pow2(b - a), Pow2(a), Pow2(b));
  }

  lemma IncModulo(n: nat, d: nat)
    requires d >= 1
    ensures (n % d + 1) % d == (n + 1) % d
  {
    DivModIdentity(n, d);
    AddMultiple(n % d + 1, d, n / d);
  }

  lemma IncMod(w: nat, n: nat)
    ensures Inc(w, n % Pow2(w)) == (n + 1) % Pow2(w)
  {
    IncModulo(n, Pow2(w));
  }

  lemma DecPositive(w: nat, x: nat)
    requires 1 <= x < Pow2(w)
    ensures Dec(w, x) == x - 1
  {
    AddMultiple(x - 1, Pow2(w), 1);
    SmallMod(x - 1, Pow2(w));
  }

  /** A wrapped w-bit counter of value n publishes n modulo 2^(w-1). */
  lemma PublishedOf(w: nat, n: nat)
    requires w >= 1
    ensures Published(w, n % Pow2(w)) == n % Pow2(w - 1) < Pow2(w - 1) <= Dummy(w)
  {
    assert Dummy(w) / 2 == Pow2(w - 1) - 1;
    MaskIsMod(n % Pow2(w), w - 1);
    ModMod(n, w - 1, w);
  }

  /** No published number is the dummy number. */
  lemma NeverDummy(w: nat, n: nat)
    requires w >= 2
    ensures n % Pow2(w - 1) != Dummy(w)
  {
    Pow2Monotone(1, w - 1);
  }

  /** Halfway through its values a counter publishes 0 again. */
  lemma PublishedRepeats(w: nat)
    requires w >= 1
    ensures Published(w, Pow2(w - 1)) == 0
  {
    assert Dummy(w) / 2 == Pow2(w - 1) - 1;
    MaskIsMod(Pow2(w - 1), w - 1);
    AddMultiple(0, Pow2(w - 1), 1);
    SmallMod(0, Pow2(w - 1));
  }

  /** A wrapped w-bit counter of value n selects bucket n modulo the capacity. */
  lemma IndexOf(w: nat, bits: nat, n: nat)
    requires bits <= w
    ensures Index(Pow2(bits), n % Pow2(w)) == n % Pow2(bits)
  {
    MaskIsMod(n % Pow2(w), bits);
    ModMod(n, bits, w);
  }

  /** Two numbers less than d apart are congruent modulo d only when equal. */
  lemma SameSlot(m: nat, n: nat, d: nat)
    requires d >= 1 && m < n && n - m < d
    ensures m % d != n % d
  {
    if m % d == n % d {
      var k := n / d - m / d;
      assert n - m == k * d;
      if k >= 1 { MulAtLeast(k, d); }
    }
  }

  /** The latest number below W that falls into bucket b. */
  lemma LatestIn(b: nat, W: nat, cap: nat) returns (n: nat)
    requires b < cap && b < W
    ensures n < W && n >= W - cap && n % cap == b
  {
    var d := (W - 1 - b) % cap;
    n := W - 1 - d;
    var q := (W - 1 - b) / cap;
    DivModIdentity(W - 1 - b, cap);
    assert n == b + q * cap;
    AddMultiple(b, cap, q);
    SmallMod(b, cap);
  }

  /** A decrement undoes an increment, even one that wrapped. */
  lemma IncDec(w: nat, x: nat)
    requires x < Pow2(w)
    ensures Dec(w, Inc(w, x)) == x
  {
    if x + 1 == Pow2(w) {
      AddMultiple(0, Pow2(w), 1);
      SmallMod(0, Pow2(w));
      SmallMod(Pow2(w) - 1, Pow2(w));
    } else {
      SmallMod(x + 1, Pow2(w));
      DecPositive(w, x + 1);
    }
  }

  lemma ByteHolds255(w: nat)
    requires w >= 8
    ensures Pow2(8) == 256 <= Pow2(w)
  {
    assert Pow2(4) == 16;
    Pow2Add(4, 4);
    Pow2Monotone(8, w);
  }

  lemma SmallCounter(w: nat, bits: nat, i: nat)
    requires w >= 1 && bits <= w - 1 && i < Pow2(bits)
    ensures i < Pow2(w - 1) <= Pow2(w)
    ensures i % Pow2(w) == i && i % Pow2(bits) == i && i % Pow2(w - 1) == i
  {
    Pow2Monotone(bits, w - 1);
    Pow2Monotone(w - 1, w);
    SmallMod(i, Pow2(w));
    SmallMod(i, Pow2(w - 1));
    SmallMod(i, Pow2(bits));
  }

  /** The bucket of number j of the first lap: behind the last one, bucket 0 comes again. */
  function Slot(j: nat, cap: nat): nat {
    if j == cap then 0 else j
  }

  /** For a number below a capacity of 2^bits < 2^w, publishing and the next increment do not wrap. */
  lemma SmallNumber(w: nat, bits: nat, i: nat)
    requires w >= 1 && bits <= w - 1 && i < Pow2(bits)
    ensures Published(w, i) == i && Inc(w, i) == i + 1
    ensures Index(Pow2(bits), i + 1) == Slot(i + 1, Pow2(bits))
  {
    SmallCounter(w, bits, i);
    PublishedOf(w, i);
    Pow2Monotone(bits, w);
    SmallMod(i + 1, Pow2(w));
    MaskIsMod(i + 1, bits);
    if i + 1 < Pow2(bits) {
      SmallMod(i + 1, Pow2(bits));
    } else {
      AddMultiple(0, Pow2(bits), 1);
      SmallMod(0, Pow2(bits));
    }
  }
}

/**
  Unsigned 32-bit words (WebAssembly i32, Go uint32) as integers in
  [0, 2^32), with wrap-around and bitwise AND written out.
 */
module Words {

  const Modulus: int := 0x1_0000_0000

  type u32 = x: int | 0 <= x < 0x1_0000_0000

  function Pow2(k: nat): (r: nat)
    ensures r >= 1
  {
    if k == 0 then 1 else 2 * Pow2(k - 1)
  }

  /** Reduction modulo 2^32 (Dafny's `%` is Euclidean, so the result is never negative). */
  function Wrap(n: int): u32 {
    n % Modulus
  }

  /** Wrapping addition and subtraction, as i32.add / i32.sub and Go's uint32 `+` / `-` compute them. */
  function Add(a: u32, b: u32): (r: u32)
    ensures a + b < Modulus ==> r == a + b
  {
    Wrap(a + b)
  }

  function Sub(a: u32, b: u32): (r: u32)
    ensures b <= a ==> r == a - b
    ensures a < b ==> r == Modulus + a - b
  {
    Wrap(a - b)
  }

  /** The bitwise AND of the low `width` bits of `a` and `b`. */
  function BitAnd(a: nat, b: nat, width: nat): (r: nat)
    ensures r < Pow2(width)
  {
    if width == 0 then 0
    else 2 * BitAnd(a / 2, b / 2, width - 1) + (if a % 2 == 1 && b % 2 == 1 then 1 else 0)
  }

  lemma {:induction false} Pow2Add(a: nat, b: nat)
    ensures Pow2(a + b) == Pow2(a) * Pow2(b)
    decreases a
  {
    if a > 0 {
      Pow2Add(a - 1, b);
    }
  }

  lemma Pow2Of32()
    ensures Pow2(32) == Modulus
  {
    assert Pow2(8) == 256;
    Pow2Add(8, 8);
    Pow2Add(16, 16);
  }

  /** i32.and, and Go's `&` on uint32: the result keeps only bits set in both, so it is below each operand. */
  function And(a: u32, b: u32): (r: u32)
    ensures r <= a && r <= b
  {
    Pow2Of32();
    BitAndBelow(a, b, 32);
    BitAnd(a, b, 32)
  }

  /** Go's `a &^ b` (AND NOT) on uint32: clearing bits never increases `a`. */
  function AndNot(a: u32, b: u32): (r: u32)
    ensures r <= a
  {
    And(a, Modulus - 1 - b)
  }

  /** The bits of `a` and `b` that survive the AND make a number no larger than either. */
  lemma {:induction false} BitAndBelow(a: nat, b: nat, width: nat)
    ensures BitAnd(a, b, width) <= a && BitAnd(a, b, width) <= b
    decreases width
  {
    if width > 0 {
      BitAndBelow(a / 2, b / 2, width - 1);
      assert a == 2 * (a / 2) + a % 2 && b == 2 * (b / 2) + b % 2;
    }
  }

  lemma {:induction false} Pow2Monotone(j: nat, k: nat)
    requires j <= k
    ensures Pow2(j) <= Pow2(k)
    decreases k
  {
    if j < k {
      Pow2Monotone(j, k - 1);
    }
  }

  lemma {:induction false} MulAtLeast(d: int, m: int)
    requires d >= 1 && m > 0
    ensures d * m >= m
    decreases d
  {
    if d > 1 {
      MulAtLeast(d - 1, m);
      assert d * m == (d - 1) * m + m;
    }
  }

  /** Quotient and remainder are unique. */
  lemma ModUnique(x: int, m: int, q: int, r: int)
    requires m > 0 && 0 <= r < m && x == q * m + r
    ensures x % m == r
  {
    var q', r' := x / m, x % m;
    assert x == q' * m + r';
    if q' > q {
      MulAtLeast(q' - q, m);
      assert false;
    } else if q > q' {
      MulAtLeast(q - q', m);
      assert false;
    }
  }

  /** Splitting off the lowest bit: `x mod 2^n` from `(x / 2) mod 2^(n-1)`. */
  lemma ModPow2Halves(x: nat, n: nat)
    requires n >= 1
    ensures x % Pow2(n) == 2 * ((x / 2) % Pow2(n - 1)) + x % 2
  {
    var p := Pow2(n - 1);
    assert Pow2(n) == 2 * p;
    var q := (x / 2) / p;
    var b := (x / 2) % p;
    assert x / 2 == q * p + b;
    assert x == 2 * (x / 2) + x % 2;
    assert x == q * (2 * p) + (2 * b + x % 2);
    ModUnique(x, 2 * p, q, 2 * b + x % 2);
  }

  /** One step of `BitAnd`: the lowest bit, and the rest shifted down. */
  lemma BitAndStep(a: nat, b: nat, width: nat)
    requires width >= 1
    ensures BitAnd(a, b, width) == 2 * BitAnd(a / 2, b / 2, width - 1) + (if a % 2 == 1 && b % 2 == 1 then 1 else 0)
  {
  }

  /** Halving 2^w - 2^k, when k >= 1, gives 2^(w-1) - 2^(k-1). */
  lemma HalveMask(w: nat, k: nat)
    requires 1 <= k <= w
    ensures Pow2(k - 1) <= Pow2(w - 1) && Pow2(k) <= Pow2(w)
    ensures (Pow2(w) - Pow2(k)) % 2 == 0
    ensures (Pow2(w) - Pow2(k)) / 2 == Pow2(w - 1) - Pow2(k - 1)
  {
    Pow2Monotone(k - 1, w - 1);
    var p, q := Pow2(w - 1), Pow2(k - 1);
    assert Pow2(w) == 2 * p && Pow2(k) == 2 * q;
  }

  /** Halving 2^w - 1, when w >= 1, gives 2^(w-1) - 1 and leaves bit 0 set. */
  lemma HalveFullMask(w: nat)
    requires 1 <= w
    ensures (Pow2(w) - 1) % 2 == 1
    ensures (Pow2(w) - 1) / 2 == Pow2(w - 1) - 1
  {
    var p := Pow2(w - 1);
    assert Pow2(w) == 2 * p;
    var n := Pow2(w) - 1;
    assert n == 2 * (p - 1) + 1;
    assert n / 2 == p - 1;
  }

  /** The low `k` bits of `x`, one bit at a time. */
  function LowBits(x: nat, k: nat): nat
  {
    if k == 0 then 0 else 2 * LowBits(x / 2, k - 1) + x % 2
  }

  /** The low `k` bits are the remainder modulo 2^k. */
  lemma {:induction false} LowBitsIsMod(x: nat, k: nat)
    ensures LowBits(x, k) == x % Pow2(k)
    decreases k
  {
    if k > 0 {
      LowBitsIsMod(x / 2, k - 1);
      ModPow2Halves(x, k);
    }
  }

  /**
    ANDing with 2^w - 2^k keeps bits k .. w-1 of `x` and clears the others:
    the low w bits of `x` less its low k bits.
   */
  lemma {:induction false} BitAndClearsLowBits(x: nat, w: nat, k: nat)
    requires k <= w
    ensures Pow2(k) <= Pow2(w)
    ensures BitAnd(x, Pow2(w) - Pow2(k), w) == LowBits(x, w) - LowBits(x, k)
    decreases w
  {
    if w == 0 {
    } else if k == 0 {
      BitAndClearsLowBits(x / 2, w - 1, 0);
      FullMaskStep(x, w);
    } else {
      BitAndClearsLowBits(x / 2, w - 1, k - 1);
      MaskStep(x, w, k);
    }
  }

  /** The step of BitAndClearsLowBits for k = 0, given the claim one bit down. */
  lemma FullMaskStep(x: nat, w: nat)
    requires w >= 1 && Pow2(0) <= Pow2(w - 1)
    requires BitAnd(x / 2, Pow2(w - 1) - Pow2(0), w - 1) == LowBits(x / 2, w - 1) - LowBits(x / 2, 0)
    ensures Pow2(0) <= Pow2(w)
    ensures BitAnd(x, Pow2(w) - Pow2(0), w) == LowBits(x, w) - LowBits(x, 0)
  {
    assert Pow2(0) == 1 && LowBits(x, 0) == 0 && LowBits(x / 2, 0) == 0;
    HalveFullMask(w);
    BitAndStep(x, Pow2(w) - 1, w);
  }

  /** The step of BitAndClearsLowBits for k >= 1, given the claim one bit down. */
  lemma MaskStep(x: nat, w: nat, k: nat)
    requires 1 <= k <= w && Pow2(k - 1) <= Pow2(w - 1)
    requires BitAnd(x / 2, Pow2(w - 1) - Pow2(k - 1), w - 1) == LowBits(x / 2, w - 1) - LowBits(x / 2, k - 1)
    ensures Pow2(k) <= Pow2(w)
    ensures BitAnd(x, Pow2(w) - Pow2(k), w) == LowBits(x, w) - LowBits(x, k)
  {
    HalveMask(w, k);
    BitAndStep(x, Pow2(w) - Pow2(k), w);
  }

  /** `x & (2^32 - 2^k)` rounds `x` down to a multiple of 2^k. */
  lemma AndClearsLowBits(x: u32, k: nat)
    requires k <= 32
    ensures Modulus - Pow2(k) >= 0
    ensures And(x, Modulus - Pow2(k)) == x - x % Pow2(k)
  {
    Pow2Of32();
    Pow2Monotone(k, 32);
    var mask := Modulus - Pow2(k);
    assert BitAnd(x, mask, 32) == x - x % Pow2(k) by {
      MaskRoundsDown(x, 32, k);
    }
    assert And(x, mask) == BitAnd(x, mask, 32);
  }

  /** For `x` below 2^w, ANDing with 2^w - 2^k rounds it down to a multiple of 2^k. */
  lemma MaskRoundsDown(x: nat, w: nat, k: nat)
    requires k <= w && x < Pow2(w)
    ensures Pow2(k) <= Pow2(w)
    ensures BitAnd(x, Pow2(w) - Pow2(k), w) == x - x % Pow2(k)
  {
    BitAndClearsLowBits(x, w, k);
    LowBitsIsMod(x, w);
    LowBitsIsMod(x, k);
    ModUnique(x, Pow2(w), 0, x);
  }

  /** `x &^ (2^k - 1)` clears the low k bits of `x`. */
  lemma AndNotClearsLowBits(x: u32, k: nat)
    requires k <= 32
    ensures 0 <= Pow2(k) - 1 < Modulus
    ensures AndNot(x, Pow2(k) - 1) == x - x % Pow2(k)
  {
    Pow2Of32();
    Pow2Monotone(k, 32);
    AndClearsLowBits(x, k);
  }

  /** Wrap-around addition keeps a multiple of 8 (or 16) a multiple of 8 (or 16): 2^32 is one. */
  lemma AddKeepsAlignment(a: u32, b: u32)
    ensures a % 8 == 0 && b % 8 == 0 ==> Add(a, b) % 8 == 0
    ensures a % 16 == 0 && b % 16 == 0 ==> Add(a, b) % 16 == 0
  {
    if a % 8 == 0 && b % 8 == 0 {
      AddMultiple(a, b, 8);
    }
    if a % 16 == 0 && b % 16 == 0 {
      AddMultiple(a, b, 16);
    }
  }

  lemma AddMultiple(a: u32, b: u32, k: nat)
    requires k == 8 || k == 16
    requires a % k == 0 && b % k == 0
    ensures Add(a, b) % k == 0
  {
    var qa, qb := a / k, b / k;
    assert a == qa * k && b == qb * k;
    var s := Add(a, b);
    if a + b < Modulus {
      assert s == (qa + qb) * k;
      ModUnique(s, k, qa + qb, 0);
    } else {
      var c := Modulus / k;
      assert Modulus == c * k;
      assert s == (qa + qb - c) * k;
      ModUnique(s, k, qa + qb - c, 0);
    }
  }

  /** Reducing early does not change the final reduction. */
  lemma WrapAdd(x: nat, y: nat)
    ensures Wrap(Wrap(x) + y) == Wrap(x + y)
  {
    var q, r := x / Modulus, x % Modulus;
    var t, u := (r + y) / Modulus, (r + y) % Modulus;
    assert x + y == (q + t) * Modulus + u;
    ModUnique(x + y, Modulus, q + t, u);
  }
}

/**
The arithmetic behind address matching: the bit operations that the parsers and the prefix mask use on
unbounded integers, and what they mean as multiplication, addition and division by powers of two.
*/
module AddressBits {

  function Pow2(k: nat): (r: nat)
    ensures r >= 1
  {
    if k == 0 then 1 else 2 * Pow2(k - 1)
  }

  function ShiftLeft(x: nat, k: nat): nat { x * Pow2(k) }

  function And(x: nat, y: nat): nat {
    if x == 0 || y == 0 then 0 else 2 * And(x / 2, y / 2) + (if x % 2 == 1 && y % 2 == 1 then 1 else 0)
  }

  function Or(x: nat, y: nat): nat {
    if x == 0 then y else if y == 0 then x else 2 * Or(x / 2, y / 2) + (if x % 2 == 1 || y % 2 == 1 then 1 else 0)
  }

  function Xor(x: nat, y: nat): nat {
    if x == 0 then y else if y == 0 then x else 2 * Xor(x / 2, y / 2) + (if x % 2 != y % 2 then 1 else 0)
  }

  /** The mask for a prefix, as the code builds it. */
  function Mask(bits: nat, prefix: nat): nat
    requires prefix <= bits
  {
    if prefix == 0 then 0 else Xor(ShiftLeft(1, bits) - 1, ShiftLeft(1, bits - prefix) - 1)
  }

  // ---------------------------------------------------------------- division

  lemma {:induction false} Quotient(x: nat, m: nat, q: nat, r: nat)
    requires m > 0 && x == m * q + r && r < m
    ensures x / m == q
  {
    var d := x / m - q;
    assert x == m * (x / m) + x % m;
    assert m * d == r - x % m;
    SmallMultiple(m, d);
  }

  lemma {:induction false} SmallMultiple(m: int, d: int)
    requires m >= 0 && -m < m * d < m
    ensures d == 0
  {
    if d >= 1 { Scale(m, 1, d); } else if d <= -1 { Scale(m, d, -1); }
  }

  lemma {:induction false} Scale(m: nat, a: int, b: int)
    requires a <= b
    ensures m * a <= m * b
  {
    assert m * (b - a) >= 0;
  }

  /** Dividing twice is dividing by the product. */
  lemma {:induction false} DivideTwice(x: nat, a: nat, b: nat)
    requires a > 0 && b > 0
    ensures a * b > 0 && (x / a) / b == x / (a * b)
  {
    var y := x / a;
    var q, r := y / b, y % b;
    assert y == b * q + r;
    assert x == a * y + x % a;
    assert a * y == a * (b * q) + a * r;
    assert a * (b * q) == (a * b) * q;
    assert a * b >= a by { Scale(a, 1, b); }
    assert a * r <= a * (b - 1) by { Scale(a, r, b - 1); }
    assert a * (b - 1) == a * b - a;
    Quotient(x, a * b, q, a * r + x % a);
  }

  lemma {:induction false} Pow2Add(a: nat, b: nat)
    ensures Pow2(a + b) == Pow2(a) * Pow2(b)
  {
    if b > 0 {
      Pow2Add(a, b - 1);
      assert Pow2(a + b) == 2 * Pow2(a + (b - 1));
      Doubled(Pow2(a), Pow2(b - 1));
    }
  }

  lemma {:induction false} Doubled(a: nat, b: nat)
    ensures 2 * (a * b) == a * (2 * b)
  {
  }

  // ---------------------------------------------------------------- bit operations

  lemma {:induction false} ShiftTwice(x: nat, k: nat)
    requires k > 0
    ensures ShiftLeft(x, k) == 2 * ShiftLeft(x, k - 1)
  {
    Doubled(x, Pow2(k - 1));
  }

  /** Appending `k` bits to a shifted number is addition. */
  lemma {:induction false} OrShifted(x: nat, y: nat, k: nat)
    requires y < Pow2(k)
    ensures Or(ShiftLeft(x, k), y) == ShiftLeft(x, k) + y
  {
    hide ShiftLeft;
    if k > 0 {
      OrShifted(x, y / 2, k - 1);
      ShiftTwice(x, k);
      OrEven(ShiftLeft(x, k - 1), y);
    }
  }

  lemma {:induction false} OrEven(z: nat, y: nat)
    ensures Or(2 * z, y) == 2 * Or(z, y / 2) + y % 2
  {
  }

  lemma {:induction false} XorOnes(n: nat, h: nat)
    requires h <= n
    ensures Pow2(h) <= Pow2(n) && Xor(Pow2(n) - 1, Pow2(h) - 1) == Pow2(n) - Pow2(h)
  {
    if h > 0 {
      XorOnes(n - 1, h - 1);
      assert (Pow2(n) - 1) / 2 == Pow2(n - 1) - 1;
      assert (Pow2(h) - 1) / 2 == Pow2(h - 1) - 1;
    }
  }

  lemma {:induction false} AndOnes(x: nat, n: nat)
    requires x < Pow2(n)
    ensures And(x, Pow2(n) - 1) == x
  {
    if n > 0 && x > 0 {
      AndOnes(x / 2, n - 1);
      assert (Pow2(n) - 1) / 2 == Pow2(n - 1) - 1;
    }
  }

  function Over(x: nat, m: nat): nat
    requires m > 0
  {
    x / m
  }

  /** The number of the block of `2^h` numbers that `x` is in. */
  function Block(x: nat, h: nat): nat { Over(x, Pow2(h)) }

  /** A number with its last `h` bits cleared. */
  function HighPart(x: nat, h: nat): nat { ShiftLeft(Block(x, h), h) }

  lemma {:induction false} BlockHalf(x: nat, h: nat)
    requires h > 0
    ensures Block(x, h) == Block(x / 2, h - 1)
  {
    DivideTwice(x, 2, Pow2(h - 1));
  }

  lemma {:induction false} HighPartHalf(x: nat, h: nat)
    requires h > 0
    ensures HighPart(x, h) == 2 * HighPart(x / 2, h - 1)
  {
    hide ShiftLeft, Block;
    BlockHalf(x, h);
    ShiftTwice(Block(x, h), h);
  }

  lemma {:induction false} SameShift(a: nat, b: nat, k: nat)
    ensures ShiftLeft(a, k) == ShiftLeft(b, k) <==> a == b
  {
    if a < b { Scale(Pow2(k), a + 1, b); } else if b < a { Scale(Pow2(k), b + 1, a); }
  }

  lemma {:induction false} HighPartAll(x: nat)
    ensures HighPart(x, 0) == x
  {
  }

  lemma {:induction false} AndHigh(x: nat, n: nat, h: nat)
    requires x < Pow2(n) && h <= n
    ensures Pow2(h) <= Pow2(n) && And(x, Pow2(n) - Pow2(h)) == HighPart(x, h)
  {
    hide HighPart;
    XorOnes(n, h);
    if h == 0 {
      AndOnes(x, n);
      HighPartAll(x);
    } else {
      AndHigh(x / 2, n - 1, h - 1);
      HighPartHalf(x, h);
      AndEven(x, Pow2(n - 1) - Pow2(h - 1));
    }
  }

  lemma {:induction false} AndEven(x: nat, z: nat)
    ensures And(x, 2 * z) == 2 * And(x / 2, z)
  {
  }

  /** Addresses agree under the mask of a prefix exactly if their quotients by the size of the host part agree. */
  lemma {:induction false} MaskComparesQuotients(x: nat, y: nat, bits: nat, prefix: nat)
    requires x < Pow2(bits) && y < Pow2(bits) && prefix <= bits
    ensures And(x, Mask(bits, prefix)) == And(y, Mask(bits, prefix)) <==>
      Block(x, bits - prefix) == Block(y, bits - prefix)
  {
    hide ShiftLeft, Block, And, Mask;
    var h := bits - prefix;
    AndHigh(x, bits, h);
    AndHigh(y, bits, h);
    MaskValue(bits, prefix);
    SameShift(Block(x, h), Block(y, h), h);
  }

  lemma {:induction false} MaskValue(bits: nat, prefix: nat)
    requires prefix <= bits
    ensures Pow2(bits - prefix) <= Pow2(bits) && Mask(bits, prefix) == Pow2(bits) - Pow2(bits - prefix)
  {
    XorOnes(bits, bits - prefix);
    assert ShiftLeft(1, bits) == Pow2(bits) && ShiftLeft(1, bits - prefix) == Pow2(bits - prefix);
  }

  /** Addresses that agree at one prefix agree at every shorter one. */
  lemma {:induction false} ShorterPrefixAgrees(x: nat, y: nat, bits: nat, prefix: nat, shorter: nat)
    requires shorter <= prefix <= bits
    requires Block(x, bits - prefix) == Block(y, bits - prefix)
    ensures Block(x, bits - shorter) == Block(y, bits - shorter)
  {
    hide Block;
    BlockTwice(x, bits - prefix, prefix - shorter);
    BlockTwice(y, bits - prefix, prefix - shorter);
  }

  lemma {:induction false} BlockTwice(x: nat, a: nat, b: nat)
    ensures Block(x, a + b) == Block(Block(x, a), b)
  {
    Pow2Add(a, b);
    DivideTwice(x, Pow2(a), Pow2(b));
  }

  // ---------------------------------------------------------------- positional values

  /** Digits of `k` bits each, most significant first. */
  function Positional(digits: seq<nat>, k: nat): nat {
    if digits == [] then 0 else Positional(digits[..|digits| - 1], k) * Pow2(k) + digits[|digits| - 1]
  }

  lemma {:induction false} PositionalSnoc(digits: seq<nat>, d: nat, k: nat)
    ensures Positional(digits + [d], k) == Positional(digits, k) * Pow2(k) + d
  {
    assert (digits + [d])[..|digits|] == digits;
  }

  lemma {:induction false} BoundStep(v: nat, p: nat, d: nat, m: nat)
    requires v < p && d < m
    ensures v * m + d < p * m
  {
    Scale(m, v + 1, p);
  }

  lemma {:induction false} PositionalBound(digits: seq<nat>, k: nat)
    requires forall i :: 0 <= i < |digits| ==> digits[i] < Pow2(k)
    ensures Positional(digits, k) < Pow2(k * |digits|)
  {
    if digits != [] {
      var n := |digits| - 1;
      PositionalBound(digits[..n], k);
      Pow2Add(k * n, k);
      BoundStep(Positional(digits[..n], k), Pow2(k * n), digits[n], Pow2(k));
      assert k * |digits| == k * n + k;
    }
  }
}

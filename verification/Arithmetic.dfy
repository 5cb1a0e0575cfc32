/** Machine arithmetic that Dafny's mathematical integers do not have: bit masks,
    wrap-around and division that truncates toward zero. */
module Arithmetic {

  function Abs(x: int): nat {
    if x < 0 then -x else x
  }

  function Max(a: int, b: int): int {
    if a < b then b else a
  }

  function Min(a: int, b: int): int {
    if a < b then a else b
  }

  /** Unsigned subtraction that stops at zero (`saturating_sub`). */
  function SatSub(a: nat, b: nat): nat {
    if a < b then 0 else a - b
  }

  // ---------------------------------------------------------------- division

  /** Rust's `/` on signed integers. */
  function TruncDiv(a: int, b: int): int
    requires b > 0
  {
    if a >= 0 then a / b else -((-a) / b)
  }

  /** What truncation leaves over. */
  function TruncRem(a: int, b: int): (r: int)
    requires b > 0
    ensures a == TruncDiv(a, b) * b + r
    ensures Abs(r) < b
    ensures (a >= 0 ==> r >= 0) && (a <= 0 ==> r <= 0)
  {
    if a >= 0 then a % b else -((-a) % b)
  }

  lemma MulLe(a: int, b: int, c: int)
    requires a <= b && c >= 0
    ensures a * c <= b * c
  {
  }

  /** Integer bounds on a quotient survive truncation, on both sides of zero. */
  lemma TruncDivBetween(a: int, b: int, lo: int, hi: int)
    requires b > 0
    requires lo * b <= a <= hi * b
    ensures lo <= TruncDiv(a, b) <= hi
  {
    var q, r := TruncDiv(a, b), TruncRem(a, b);
    assert (q + 1) * b == q * b + b && (hi + 1) * b == hi * b + b;
    if q < lo { MulLe(q + 1, lo, b); }
    if hi < q { MulLe(hi + 1, q, b); }
  }

  lemma ModUnique(x: int, m: int, q: int, r: int)
    requires m > 0 && x == m * q + r && 0 <= r < m
    ensures x % m == r && x / m == q
  {
    var q', r' := x / m, x % m;
    assert m * (q - q') == r' - r;
    if q < q' { MulLe(1, q' - q, m); }
    if q > q' { MulLe(1, q - q', m); }
  }

  /** Reducing modulo a multiple of n first changes nothing modulo n. */
  lemma ModOfMultiple(x: nat, n: nat, c: nat)
    requires n > 0 && c > 0
    ensures n * c > 0
    ensures (x % (n * c)) % n == x % n
  {
    MulLe(1, c, n);
    var a, b := x / (n * c), x % (n * c);
    var d, e := b / n, b % n;
    assert x == (n * c) * a + b;
    assert (n * c) * a == n * (c * a);
    assert n * (c * a) + n * d == n * (c * a + d);
    ModUnique(x, n, c * a + d, e);
  }

  /** Residues of two numbers less than m apart differ unless the numbers agree. */
  lemma ModDistinct(a: nat, b: nat, m: nat)
    requires a < b < a + m
    ensures a % m != b % m
  {
    if a % m == b % m {
      var d := b / m - a / m;
      assert b - a == m * d;
      if d <= 0 { MulLe(d, 0, m); } else { MulLe(1, d, m); }
    }
  }

  // ---------------------------------------------------------------- bit masks

  function Pow2(k: nat): (p: nat)
    ensures p > 0
  {
    if k == 0 then 1 else 2 * Pow2(k - 1)
  }

  lemma {:induction false} Pow2Add(a: nat, b: nat)
    ensures Pow2(a + b) == Pow2(a) * Pow2(b)
  {
    if a == 0 {
    } else {
      Pow2Add(a - 1, b);
    }
  }

  /** Bitwise conjunction of two unsigned words. */
  function BitAnd(x: nat, y: nat): nat
    decreases x
  {
    if x == 0 || y == 0 then 0
    else (x % 2) * (y % 2) + 2 * BitAnd(x / 2, y / 2)
  }

  lemma BitAndOdd(x: nat, z: nat)
    ensures BitAnd(x, 2 * z + 1) == x % 2 + 2 * BitAnd(x / 2, z)
  {
    if x > 0 {
      var y := 2 * z + 1;
      assert y % 2 == 1 && y / 2 == z;
    }
  }

  lemma ModOfDouble(x: nat, m: nat)
    requires m > 0
    ensures x % (2 * m) == x % 2 + 2 * ((x / 2) % m)
  {
    var y := x / 2;
    var q, r := y / m, y % m;
    assert y == m * q + r;
    assert 2 * (m * q) == (2 * m) * q;
    ModUnique(x, 2 * m, q, 2 * r + x % 2);
  }

  /** Masking with a power of two minus one is reduction modulo that power. */
  lemma {:induction false} MaskIsMod(x: nat, k: nat)
    ensures BitAnd(x, Pow2(k) - 1) == x % Pow2(k)
    decreases k
  {
    if k == 0 {
    } else {
      var m := Pow2(k - 1);
      assert Pow2(k) == 2 * m;
      MaskIsMod(x / 2, k - 1);
      hide *;
      ModOfDouble(x, m);
      BitAndOdd(x, m - 1);
    }
  }
}

/** Go's fixed-width signed integers: `int` on a 64-bit platform, and the wire's `int32`. */
module MachineInts {
  const TWO_31: int := 0x8000_0000
  const TWO_32: int := 0x1_0000_0000
  const TWO_63: int := 0x8000_0000_0000_0000
  const TWO_64: int := 0x1_0000_0000_0000_0000

  predicate IsInt32(x: int) {
    -TWO_31 <= x < TWO_31
  }

  predicate IsInt64(x: int) {
    -TWO_63 <= x < TWO_63
  }

  /** The `int32(x)` conversion: keep the low 32 bits, read as two's complement. */
  function Wrap32(x: int): (r: int)
    ensures IsInt32(r)
    ensures r == x <==> IsInt32(x)
  {
    (x + TWO_31) % TWO_32 - TWO_31
  }

  /** What a 64-bit signed operation leaves of its exact result. */
  function Wrap64(x: int): (r: int)
    ensures IsInt64(r)
    ensures r == x <==> IsInt64(x)
  {
    (x + TWO_63) % TWO_64 - TWO_63
  }

  lemma ModShift(x: int, k: int, n: int)
    requires n > 0
    ensures (x + k * n) % n == x % n
  {
    var q, r := x / n, x % n;
    assert x + k * n == (q + k) * n + r by {
      assert (q + k) * n == q * n + k * n;
    }
    ModUnique(x + k * n, q + k, r, n);
  }

  lemma ModUnique(x: int, q: int, r: int, n: int)
    requires n > 0 && 0 <= r < n && x == q * n + r
    ensures x % n == r && x / n == q
  {
    var d := x / n - q;
    assert d * n == r - x % n by {
      assert d * n == (x / n) * n - q * n;
    }
    if d != 0 {
      NonzeroMultiple(d, n);
    }
  }

  lemma NonzeroMultiple(d: int, n: int)
    requires n > 0 && d != 0
    ensures d * n >= n || d * n <= -n
  {
    if d >= 1 {
      assert d * n == n + (d - 1) * n;
    } else {
      assert d * n == -n - (-d - 1) * n;
    }
  }

  lemma WrapShift(x: int, k: int)
    ensures Wrap64(x + k * TWO_64) == Wrap64(x)
  {
    ModShift(x + TWO_63, k, TWO_64);
    assert x + k * TWO_64 + TWO_63 == (x + TWO_63) + k * TWO_64;
  }

  /** An operand may be wrapped early or late: a sum comes out the same. */
  lemma WrapAdd(x: int, y: int)
    ensures Wrap64(Wrap64(x) + y) == Wrap64(x + y)
  {
    var k := (x + TWO_63) / TWO_64;
    assert Wrap64(x) == x - k * TWO_64;
    WrapShift(x + y, -k);
  }

  lemma WrapAddRight(x: int, y: int)
    ensures Wrap64(x + Wrap64(y)) == Wrap64(x + y)
  {
    hide Wrap64;
    WrapAdd(y, x);
    assert Wrap64(y) + x == x + Wrap64(y) && y + x == x + y;
  }

  lemma WrapSub(x: int, y: int)
    ensures Wrap64(x - Wrap64(y)) == Wrap64(x - y)
  {
    var k := (y + TWO_63) / TWO_64;
    assert Wrap64(y) == y - k * TWO_64;
    WrapShift(x - y, k);
  }

  /** The same for a product. */
  lemma WrapMul(x: int, y: int)
    ensures Wrap64(Wrap64(x) * y) == Wrap64(x * y)
  {
    var k := (x + TWO_63) / TWO_64;
    assert Wrap64(x) == x - k * TWO_64;
    assert (x - k * TWO_64) * y == x * y + (-(k * y)) * TWO_64;
    WrapShift(x * y, -(k * y));
  }
}

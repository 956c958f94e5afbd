/** Small helpers shared by every module: optional values and the integer
    operators of Go, whose division truncates toward zero. */
module Common {

  datatype Option<T> = None | Some(value: T)

  function Abs(x: int): nat { if x < 0 then -x else x }

  function Min(a: int, b: int): int { if a < b then a else b }

  function Max(a: int, b: int): int { if a < b then b else a }

  /** Go's `a / b` on `int`: the quotient is truncated toward zero, so the
      remainder it leaves takes the sign of the dividend. */
  function GoDiv(a: int, b: int): (q: int)
    requires b != 0
    ensures Abs(a - q * b) < Abs(b)
    ensures a - q * b == 0 || (a - q * b < 0 <==> a < 0)
  {
    if a >= 0 then (if b > 0 then a / b else -(a / -b))
    else (if b > 0 then -((-a) / b) else (-a) / (-b))
  }

  /** Go's `a % b` on `int`, the partner of GoDiv. */
  function GoRem(a: int, b: int): (r: int)
    requires b != 0
    ensures GoDiv(a, b) * b + r == a
    ensures Abs(r) < Abs(b)
    ensures r == 0 || (r < 0 <==> a < 0)
  {
    a - GoDiv(a, b) * b
  }

  /** On a non-negative dividend and positive divisor Go's operators agree
      with Dafny's Euclidean ones. */
  lemma GoDivNonNegative(a: int, b: int)
    requires a >= 0 && b > 0
    ensures GoDiv(a, b) == a / b && GoRem(a, b) == a % b
  {
  }

  /** The sign of a product with a positive factor `t`, and the window
      (-t, t) that only 0 reaches. Used by DivModUnique below and by the
      percentage and summary-bar bounds in the sidebar. */
  lemma ProductSign(x: int, t: int)
    requires t > 0
    ensures x * t < 0 <==> x < 0
    ensures x * t > -t ==> x >= 0
    ensures x * t < t ==> x <= 0
  {
    if x >= 1 {
      assert (x - 1) * t >= 0;
    } else if x <= -1 {
      assert (-x - 1) * t >= 0;
    }
  }

  /** The quotient and remainder of Dafny's `/` and `%` are the unique pair
      with the remainder in [0, d). Used by the colour-cube decoding in
      the terminal (CubeLightness). */
  lemma DivModUnique(a: int, d: int, q: int, r: int)
    requires d > 0 && 0 <= r < d && a == q * d + r
    ensures a / d == q && a % d == r
  {
    var q', r' := a / d, a % d;
    assert (q - q') * d == r' - r;
    ProductSign(q - q', d);
  }

  /** A Go `uint16(x)` conversion of an `int`: the low 16 bits. */
  function U16(x: int): (r: int)
    ensures 0 <= r < 0x1_0000
    ensures 0 <= x < 0x1_0000 ==> r == x
    ensures (r - x) % 0x1_0000 == 0
  {
    x % 0x1_0000
  }

  /** `s` occurs in `t` as a contiguous block (Go's strings.Contains). */
  predicate Contains(t: string, s: string)
    decreases |t|
  {
    if |t| < |s| then false
    else t[..|s|] == s || Contains(t[1..], s)
  }

  /** `s` sits at offset `i` of `t`. */
  predicate OccursAt(t: string, s: string, i: int)
  {
    0 <= i && i + |s| <= |t| && t[i..i + |s|] == s
  }

  /** Contains holds exactly when `s` sits at some offset of `t`. */
  lemma {:induction false} ContainsIffOccurs(t: string, s: string)
    ensures Contains(t, s) <==> exists i :: OccursAt(t, s, i)
    decreases |t|
  {
    if |t| < |s| {
    } else if t[..|s|] == s {
      assert OccursAt(t, s, 0);
    } else {
      ContainsIffOccurs(t[1..], s);
      forall i | 0 <= i
        ensures OccursAt(t[1..], s, i) <==> OccursAt(t, s, i + 1)
      {
        if i + |s| <= |t[1..]| {
          assert t[1..][i..i + |s|] == t[i + 1..i + 1 + |s|];
        }
      }
      if exists i :: OccursAt(t, s, i) {
        var i :| OccursAt(t, s, i);
        assert i > 0;
        assert OccursAt(t[1..], s, i - 1);
      }
    }
  }

  /** Go's `<` on strings: lexicographic byte order. Code-point order on
      `char` coincides with byte order of the UTF-8 encoding. */
  predicate LexLess(a: string, b: string)
  {
    if |b| == 0 then false
    else if |a| == 0 then true
    else if a[0] != b[0] then a[0] < b[0]
    else LexLess(a[1..], b[1..])
  }
}

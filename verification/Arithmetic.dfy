/** Facts about division and products. */
module Arithmetic {

  lemma MulLess(a: int, b: int, c: int)
    requires c > 0
    ensures a * c < b * c <==> a < b
  {
    assert (b - a) * c == b * c - a * c;
    if a < b {
      assert (b - a) * c > 0;
    } else {
      assert (a - b) * c >= 0;
    }
  }

  lemma DivMod(a: int, b: int)
    requires b > 0
    ensures a == (a / b) * b + a % b && 0 <= a % b < b
  {
  }

  lemma FloorBounds(a: int, b: int, lo: int, hi: int)
    requires b > 0 && lo * b <= a <= hi * b
    ensures lo <= a / b <= hi
  {
    var q := a / b;
    DivMod(a, b);
    assert (q + 1) * b == q * b + b && (hi + 1) * b == hi * b + b;
    MulLess(lo, q + 1, b);
    MulLess(q, hi + 1, b);
  }

  lemma FloorMonotone(a: int, a': int, b: int)
    requires b > 0 && a <= a'
    ensures a / b <= a' / b
  {
    var q, q' := a / b, a' / b;
    DivMod(a, b);
    DivMod(a', b);
    assert (q' + 1) * b == q' * b + b;
    MulLess(q, q' + 1, b);
  }

  lemma QuotientUnique(a: int, b: int, q: int, r: int)
    requires 0 <= r < b && a == q * b + r
    ensures a / b == q && a % b == r
  {
    var p := a / b;
    DivMod(a, b);
    assert (p + 1) * b == p * b + b && (q + 1) * b == q * b + b;
    MulLess(p, q + 1, b);
    MulLess(q, p + 1, b);
  }
}

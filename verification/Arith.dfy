/** Facts about products and quotients that the index arithmetic needs. */
module Arith {
  lemma ScaleDiff(a: int, b: int, w: int)
    ensures (a - b) * w == a * w - b * w
  {
  }

  lemma ScaleUp(a: int, b: int, w: int)
    requires w > 0 && a <= b
    ensures a * w <= b * w
  {
    var gap := b - a;
    assert gap * w >= 0;
    assert b * w == a * w + gap * w;
  }

  lemma Scale(a: int, b: int, w: int)
    requires w > 0
    ensures a <= b <==> a * w <= b * w
  {
    if a <= b {
      ScaleUp(a, b, w);
    } else {
      ScaleUp(b + 1, a, w);
      assert (b + 1) * w == b * w + w;
    }
  }

  lemma ModOfSum(r: nat, n: nat)
    requires r < n
    ensures r % n == r && (r + n) % n == r
  {
  }

  lemma DivFacts(x: int, y: int)
    requires y > 0
    ensures x / y * y <= x < x / y * y + y
    ensures x >= 0 ==> x / y >= 0
  {
  }

  lemma DivUnique(x: int, y: int, q: int)
    requires y > 0 && q * y <= x < q * y + y
    ensures x / y == q
  {
    DivFacts(x, y);
    var k := x / y;
    assert (k + 1) * y == k * y + y && (q + 1) * y == q * y + y;
    if k < q {
      ScaleUp(k + 1, q, y);
    } else if k > q {
      ScaleUp(q + 1, k, y);
    }
  }

  lemma DivModUnique(x: int, y: int, q: int, r: int)
    requires y > 0 && x == q * y + r && 0 <= r < y
    ensures x / y == q && x % y == r
  {
    DivUnique(x, y, q);
  }

  lemma DivStep(x: int, y: int)
    requires y > 0
    ensures (x + 1) / y == x / y + (if (x + 1) % y == 0 then 1 else 0)
  {
    var q, r := x / y, x % y;
    assert (q + 1) * y == q * y + y;
    if r + 1 < y {
      DivModUnique(x + 1, y, q, r + 1);
    } else {
      DivModUnique(x + 1, y, q + 1, 0);
    }
  }

  // Going k further adds k / y multiples of y, or one more.
  lemma DivGap(x: int, k: int, y: int)
    requires y > 0
    ensures (x + k) / y - x / y == k / y || (x + k) / y - x / y == k / y + 1
  {
    var q, r, q', r' := x / y, x % y, k / y, k % y;
    assert (q + q') * y == q * y + q' * y && (q + q' + 1) * y == (q + q') * y + y;
    if r + r' < y {
      DivModUnique(x + k, y, q + q', r + r');
    } else {
      DivModUnique(x + k, y, q + q' + 1, r + r' - y);
    }
  }
}

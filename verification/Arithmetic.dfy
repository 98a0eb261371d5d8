/** Products, quotients and remainders of unknown operands. */
module Arithmetic {
  lemma MulMono(a: int, b: int, h: int)
    requires a <= b && h >= 0
    ensures a * h <= b * h
  {
    assert b * h == a * h + (b - a) * h;
  }

  lemma DivUnique(q: int, r: int, h: int)
    requires 0 <= r < h
    ensures (q * h + r) / h == q && (q * h + r) % h == r
  {
    var d := q * h + r;
    var q' := d / h;
    assert d == q' * h + d % h;
    if q' > q {
      MulMono(q + 1, q', h);
    } else if q' < q {
      MulMono(q', q - 1, h);
    }
  }

  lemma DivBelow(x: int, p: int, base: int)
    requires 0 <= x < base * p && base > 0
    ensures 0 <= x / base < p
  {
    var q := x / base;
    assert x == q * base + x % base;
    if q >= p {
      assert q * base >= p * base by {
        assert (q - p) * base >= 0;
      }
    }
  }
}

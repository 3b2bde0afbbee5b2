// Small facts about integer division and multiplication used by the
// channel-remap proofs. All operands are non-negative, so Dafny's Euclidean
// `/` and `%` agree with C++'s truncating ones here.
module Arith {

  /** Multiplication is monotone in its left operand when the right one is non-negative. */
  lemma MulLeMono(a: int, b: int, w: int)
    requires a <= b && 0 <= w
    ensures a * w <= b * w
  {
    assert b * w - a * w == (b - a) * w;
  }

  /** A strict version: a < b means a whole `w` lies between a * w and b * w. */
  lemma MulLtMono(a: int, b: int, w: int)
    requires a < b && 0 <= w
    ensures a * w + w <= b * w
  {
    MulLeMono(a + 1, b, w);
    assert (a + 1) * w == a * w + w;
  }

  /** The quotient and remainder of f * w + k by w are f and k. */
  lemma {:induction false} DivModOf(f: int, k: int, w: int)
    requires 0 < w && 0 <= k < w
    ensures (f * w + k) / w == f && (f * w + k) % w == k
  {
    var j := f * w + k;
    var q, r := j / w, j % w;
    assert j == q * w + r;
    if q < f {
      MulLtMono(q, f, w);
      assert false;
    } else if f < q {
      MulLtMono(f, q, w);
      assert false;
    }
  }

  /** Every j lies in frame j / w at offset j % w of that frame. */
  lemma FrameSplit(j: int, w: int)
    requires 0 < w
    ensures j == (j / w) * w + j % w && 0 <= j % w < w
  {
  }

  /** a <= len / w exactly when a frame grid of a frames of w fits in len. */
  lemma {:induction false} LeDivIff(a: int, len: int, w: int)
    requires 0 < w && 0 <= len
    ensures a <= len / w <==> a * w <= len
  {
    var q := len / w;
    FrameSplit(len, w);
    if a <= q {
      MulLeMono(a, q, w);
    } else {
      MulLtMono(q, a, w);
    }
  }

  /** Dividing by m and then by 2 is dividing by 2 * m. */
  lemma {:induction false} NestedDiv(len: int, m: int)
    requires 0 < m && 0 <= len
    ensures len / (2 * m) == (len / m) / 2
  {
    var q := len / (2 * m);
    var r := len % (2 * m);
    FrameSplit(len, 2 * m);
    var h := r / m;
    FrameSplit(r, m);
    assert 0 <= h < 2 by {
      if h >= 2 {
        MulLeMono(2, h, m);
      }
    }
    assert len == (2 * q + h) * m + r % m;
    DivModOf(2 * q + h, r % m, m);
    DivModOf(q, h, 2);
  }

  /** Products with a common positive factor are equal only when the other factors are. */
  lemma MulCancel(a: int, b: int, w: int)
    requires 0 < w && a * w == b * w
    ensures a == b
  {
    if a < b {
      MulLtMono(a, b, w);
    } else if b < a {
      MulLtMono(b, a, w);
    }
  }
}

/**
 * The synthetic mixture of `fast_ica`: the two preprocessed signals are stacked
 * as a 2 x N source matrix s and the page computes x = A @ s with a 2 x 2
 * mixing matrix A, exactly, over the reals.
 */
module Mixing {
  import opened Signals

  /** A 2 x 2 real matrix `[[m00, m01], [m10, m11]]`. */
  datatype Mat2 = Mat2(m00: real, m01: real, m10: real, m11: real) {

    /** The entry `A[i][j]`. */
    function Get(i: nat, j: nat): real
      requires i < 2 && j < 2
    {
      if i == 0 then (if j == 0 then m00 else m01) else (if j == 0 then m10 else m11)
    }
  }

  function Det(a: Mat2): real {
    a.m00 * a.m11 - a.m01 * a.m10
  }

  function Identity(): Mat2 {
    Mat2(1.0, 0.0, 0.0, 1.0)
  }

  /** The dot product of `[u0, u1]` and `[v0, v1]`. */
  function Dot(u0: real, u1: real, v0: real, v1: real): real {
    u0 * v0 + u1 * v1
  }

  /** The matrix product `b @ a`: entry (i, j) is row i of b times column j of a. */
  function Mul(b: Mat2, a: Mat2): Mat2 {
    Mat2(Dot(b.m00, b.m01, a.m00, a.m10), Dot(b.m00, b.m01, a.m01, a.m11),
         Dot(b.m10, b.m11, a.m00, a.m10), Dot(b.m10, b.m11, a.m01, a.m11))
  }

  /** The inverse of a matrix whose columns are not parallel. */
  function Inverse(a: Mat2): Mat2
    requires Det(a) != 0.0
  {
    var d := Det(a);
    Mat2(a.m11 / d, -a.m01 / d, -a.m10 / d, a.m00 / d)
  }

  /** Every entry lies in [0, 1], the range of the four sliders. */
  predicate InSliderRange(a: Mat2) {
    && 0.0 <= a.m00 <= 1.0 && 0.0 <= a.m01 <= 1.0
    && 0.0 <= a.m10 <= 1.0 && 0.0 <= a.m11 <= 1.0
  }

  /** The standard mixing matrix `[[0.8, 0.3], [0.2, 0.7]]`: in slider range and invertible. */
  function DefaultMixing(): (a: Mat2)
    ensures InSliderRange(a)
    ensures Det(a) == 0.5
    ensures a.m00 + a.m10 == 1.0 && a.m01 + a.m11 == 1.0
  {
    Mat2(0.8, 0.3, 0.2, 0.7)
  }

  /**
   * The matrix built from the sliders a11, a12, a21, a22 (each in [0, 1]),
   * laid out as `[[a11, a12], [a21, a22]]`.
   */
  function SliderMixing(a11: real, a12: real, a21: real, a22: real): (a: Mat2)
    requires 0.0 <= a11 <= 1.0 && 0.0 <= a12 <= 1.0
    requires 0.0 <= a21 <= 1.0 && 0.0 <= a22 <= 1.0
    ensures InSliderRange(a)
    ensures a.Get(0, 0) == a11 && a.Get(0, 1) == a12
    ensures a.Get(1, 0) == a21 && a.Get(1, 1) == a22
  {
    Mat2(a11, a12, a21, a22)
  }

  /** A 2 x N matrix: exactly two rows of one common length. */
  predicate TwoRows(s: seq<Row>) {
    |s| == 2 && |s[0]| == |s[1]|
  }

  /** The row `w0 * s0 + w1 * s1`, sample by sample. */
  function Combine(w0: real, w1: real, s0: Row, s1: Row): (r: Row)
    requires |s0| == |s1|
    ensures |r| == |s0|
    ensures forall t | 0 <= t < |r| :: r[t] == w0 * s0[t] + w1 * s1[t]
  {
    seq(|s0|, t requires 0 <= t < |s0| => w0 * s0[t] + w1 * s1[t])
  }

  /** `A @ s` for a 2 x N source matrix: two rows of length N. */
  function Mix(a: Mat2, s: seq<Row>): (x: seq<Row>)
    requires TwoRows(s)
    ensures TwoRows(x) && |x[0]| == |s[0]|
  {
    [Combine(a.m00, a.m01, s[0], s[1]), Combine(a.m10, a.m11, s[0], s[1])]
  }

  /** Every mixture sample is `x[i][t] == A[i][0] * s[0][t] + A[i][1] * s[1][t]`. */
  lemma MixSample(a: Mat2, s: seq<Row>, i: nat, t: nat)
    requires TwoRows(s) && i < 2 && t < |s[0]|
    ensures Mix(a, s)[i][t] == a.Get(i, 0) * s[0][t] + a.Get(i, 1) * s[1][t]
  {
  }

  /**
   * The frames view `x.T` handed to the separator: one `[x[0][t], x[1][t]]`
   * array per frame.
   */
  function Transpose(x: seq<Row>): (f: seq<seq<real>>)
    requires TwoRows(x)
    ensures |f| == |x[0]|
    ensures forall t | 0 <= t < |f| :: f[t] == [x[0][t], x[1][t]]
  {
    seq(|x[0]|, t requires 0 <= t < |x[0]| => [x[0][t], x[1][t]])
  }

  /** Mixing with the identity matrix reproduces the sources. */
  lemma MixIdentity(s: seq<Row>)
    requires TwoRows(s)
    ensures Mix(Identity(), s) == s
  {
    var x := Mix(Identity(), s);
    assert x[0] == s[0];
    assert x[1] == s[1];
  }

  /** Column t of the mixture depends only on column t of the sources. */
  lemma MixColumnLocal(a: Mat2, s: seq<Row>, s': seq<Row>, t: nat)
    requires TwoRows(s) && TwoRows(s') && t < |s[0]| && t < |s'[0]|
    requires s[0][t] == s'[0][t] && s[1][t] == s'[1][t]
    ensures Mix(a, s)[0][t] == Mix(a, s')[0][t]
    ensures Mix(a, s)[1][t] == Mix(a, s')[1][t]
  {
  }

  /** The scalar identity behind MixCompose, for one output sample. */
  lemma ComposeSample(b0: real, b1: real, a00: real, a01: real, a10: real, a11: real,
                      p: real, q: real, x0: real, x1: real, y: real, z: real)
    requires x0 == a00 * p + a01 * q && x1 == a10 * p + a11 * q
    requires y == b0 * x0 + b1 * x1
    requires z == Dot(b0, b1, a00, a10) * p + Dot(b0, b1, a01, a11) * q
    ensures y == z
  {
  }

  /** Combining two combinations of the sources is one combination of them. */
  lemma CombineCompose(b0: real, b1: real, a00: real, a01: real, a10: real, a11: real,
                       s0: Row, s1: Row)
    requires |s0| == |s1|
    ensures Combine(b0, b1, Combine(a00, a01, s0, s1), Combine(a10, a11, s0, s1))
         == Combine(Dot(b0, b1, a00, a10), Dot(b0, b1, a01, a11), s0, s1)
  {
    var x0, x1 := Combine(a00, a01, s0, s1), Combine(a10, a11, s0, s1);
    var y := Combine(b0, b1, x0, x1);
    var z := Combine(Dot(b0, b1, a00, a10), Dot(b0, b1, a01, a11), s0, s1);
    forall t | 0 <= t < |s0| ensures y[t] == z[t] {
      ComposeSample(b0, b1, a00, a01, a10, a11, s0[t], s1[t], x0[t], x1[t], y[t], z[t]);
    }
  }

  /** Mixing twice is mixing once with the product matrix: `b @ (a @ s) == (b @ a) @ s`. */
  lemma MixCompose(b: Mat2, a: Mat2, s: seq<Row>)
    requires TwoRows(s)
    ensures Mix(b, Mix(a, s)) == Mix(Mul(b, a), s)
  {
    CombineCompose(b.m00, b.m01, a.m00, a.m01, a.m10, a.m11, s[0], s[1]);
    CombineCompose(b.m10, b.m11, a.m00, a.m01, a.m10, a.m11, s[0], s[1]);
  }

  /** `(x / d) * y == (x * y) / d` and a sum of quotients is the quotient of the sum. */
  lemma Quotients(x: real, y: real, u: real, v: real, d: real)
    requires d != 0.0
    ensures (x / d) * y + (u / d) * v == (x * y + u * v) / d
  {
    assert (x / d) * y == (x * y) / d;
    assert (u / d) * v == (u * v) / d;
  }

  lemma InverseIsLeftInverse(a: Mat2)
    requires Det(a) != 0.0
    ensures Mul(Inverse(a), a) == Identity()
  {
    var d := Det(a);
    var n := Inverse(a);
    var m := Mul(n, a);
    assert n == Mat2(a.m11 / d, -a.m01 / d, -a.m10 / d, a.m00 / d);
    Quotients(a.m11, a.m00, -a.m01, a.m10, d);
    assert m.m00 == d / d == 1.0;
    Quotients(a.m11, a.m01, -a.m01, a.m11, d);
    assert m.m01 == 0.0 / d == 0.0;
    Quotients(-a.m10, a.m00, a.m00, a.m10, d);
    assert m.m10 == 0.0 / d == 0.0;
    Quotients(-a.m10, a.m01, a.m00, a.m11, d);
    assert m.m11 == d / d == 1.0;
  }

  /**
   * When the columns of A are not parallel the mixture loses nothing: applying
   * the inverse matrix to it gives back the sources.
   */
  lemma MixUndone(a: Mat2, s: seq<Row>)
    requires TwoRows(s) && Det(a) != 0.0
    ensures Mix(Inverse(a), Mix(a, s)) == s
  {
    MixCompose(Inverse(a), a, s);
    InverseIsLeftInverse(a);
    MixIdentity(s);
  }

  /** The standard matrix is invertible, so its mixture determines the sources. */
  lemma DefaultMixingUndone(s: seq<Row>)
    requires TwoRows(s)
    ensures Mix(Inverse(DefaultMixing()), Mix(DefaultMixing(), s)) == s
  {
    MixUndone(DefaultMixing(), s);
  }

  /**
   * When the columns of A are parallel the two captures are proportional,
   * sample by sample: both cross combinations of the rows vanish, so the page
   * has in effect one capture.
   */
  lemma MixSingular(a: Mat2, s: seq<Row>)
    requires TwoRows(s) && Det(a) == 0.0
    ensures forall t | 0 <= t < |s[0]| ::
              a.m10 * Mix(a, s)[0][t] == a.m00 * Mix(a, s)[1][t] &&
              a.m11 * Mix(a, s)[0][t] == a.m01 * Mix(a, s)[1][t]
  {
    var x := Mix(a, s);
    forall t | 0 <= t < |s[0]|
      ensures a.m10 * x[0][t] == a.m00 * x[1][t]
      ensures a.m11 * x[0][t] == a.m01 * x[1][t]
    {
      var p, q := s[0][t], s[1][t];
      calc {
        a.m10 * x[0][t];
        a.m10 * (a.m00 * p + a.m01 * q);
        a.m00 * (a.m10 * p) + (a.m01 * a.m10) * q;
        { assert a.m01 * a.m10 == a.m00 * a.m11; }
        a.m00 * (a.m10 * p) + (a.m00 * a.m11) * q;
        a.m00 * (a.m10 * p + a.m11 * q);
        a.m00 * x[1][t];
      }
      calc {
        a.m11 * x[0][t];
        a.m11 * (a.m00 * p + a.m01 * q);
        (a.m00 * a.m11) * p + a.m01 * (a.m11 * q);
        { assert a.m01 * a.m10 == a.m00 * a.m11; }
        (a.m01 * a.m10) * p + a.m01 * (a.m11 * q);
        a.m01 * (a.m10 * p + a.m11 * q);
        a.m01 * x[1][t];
      }
    }
  }
}

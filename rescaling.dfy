/**
 * The amplitude rescale `((v + v.min()) * 2 ** 15 / v.ptp())` that `fast_ica`
 * applies to each mixture row and to each estimated source before the int16
 * cast, over the reals.
 */
module Rescaling {
  import opened Signals

  /** `2 ** 15`, the factor of the rescale. */
  const Full: real := 32768.0

  /** The index of the first smallest sample: where `v.min()` is found. */
  function ArgMin(v: Row): (k: nat)
    requires |v| > 0
    ensures k < |v|
    ensures forall t | 0 <= t < |v| :: v[k] <= v[t]
    ensures forall t | 0 <= t < k :: v[k] < v[t]
  {
    if |v| == 1 then 0
    else
      var k := ArgMin(v[1..]) + 1;
      if v[0] <= v[k] then 0 else k
  }

  /** The index of the first largest sample: where the maximum behind `v.ptp()` is found. */
  function ArgMax(v: Row): (k: nat)
    requires |v| > 0
    ensures k < |v|
    ensures forall t | 0 <= t < |v| :: v[t] <= v[k]
    ensures forall t | 0 <= t < k :: v[t] < v[k]
  {
    if |v| == 1 then 0
    else
      var k := ArgMax(v[1..]) + 1;
      if v[k] <= v[0] then 0 else k
  }

  /** `v.min()`: the sample at ArgMin, which no sample of v undercuts. */
  function Min(v: Row): (m: real)
    requires |v| > 0
    ensures m in v
    ensures forall t | 0 <= t < |v| :: m <= v[t]
  {
    v[ArgMin(v)]
  }

  /** `v.max()`: the sample at ArgMax, which no sample of v exceeds. */
  function Max(v: Row): (m: real)
    requires |v| > 0
    ensures m in v
    ensures forall t | 0 <= t < |v| :: v[t] <= m
  {
    v[ArgMax(v)]
  }

  /** `v.ptp()`, peak to peak: the spread between the largest and the smallest sample. */
  function Ptp(v: Row): (p: real)
    requires |v| > 0
    ensures p >= 0.0
    ensures p == 0.0 <==> forall t, u | 0 <= t < |v| && 0 <= u < |v| :: v[t] == v[u]
  {
    Max(v) - Min(v)
  }

  /** The level one sample x reaches: `(x + min) * 2 ** 15 / ptp`. */
  function Level(x: real, min: real, ptp: real): real
    requires ptp > 0.0
  {
    (x + min) * Full / ptp
  }

  /**
   * The rescale as the page writes it, with `+ min`: every sample is moved by
   * the minimum and multiplied by the positive gain `2 ** 15 / ptp`.
   */
  function Rescale(v: Row): (out: Row)
    requires |v| > 0 && Ptp(v) > 0.0
    ensures |out| == |v|
    ensures forall t | 0 <= t < |v| :: out[t] == Level(v[t], Min(v), Ptp(v))
  {
    seq(|v|, t requires 0 <= t < |v| => Level(v[t], Min(v), Ptp(v)))
  }

  /**
   * What one rescaled artifact holds before the int16 cast: the rescaled
   * samples, or non-finite values when the vector is flat and numpy divides by
   * a zero peak-to-peak (it warns and does not raise).
   */
  datatype Amplitude = Finite(samples: Row) | NonFinite

  /**
   * One application of the rescale line to a vector, with its failure modes:
   * an empty vector makes `v.min()` raise, a flat one divides by zero.
   */
  function Normalize(v: Row): (r: Result<Amplitude>)
    ensures v == [] <==> r == Err(EmptyReduction)
    ensures r == Ok(NonFinite) <==> v != [] && Ptp(v) == 0.0
    ensures v != [] && Ptp(v) > 0.0 ==> r == Ok(Finite(Rescale(v)))
    ensures r.Ok? && r.value.Finite? ==> |v| > 0 && Ptp(v) > 0.0 && r.value.samples == Rescale(v)
  {
    if v == [] then Err(EmptyReduction)
    else if Ptp(v) == 0.0 then Ok(NonFinite)
    else Ok(Finite(Rescale(v)))
  }

  /** Multiplying by a positive gain keeps the order of any two samples, in both directions. */
  lemma GainKeepsOrder(x: real, y: real, m: real, p: real)
    requires p > 0.0
    ensures x <= y <==> Level(x, m, p) <= Level(y, m, p)
  {
    var g := Full / p;
    assert g > 0.0;
    assert (x + m) * Full / p == (x + m) * g;
    assert (y + m) * Full / p == (y + m) * g;
    assert (y + m) * g - (x + m) * g == (y - x) * g;
  }

  /** The rescale preserves the order of samples before the int16 cast, in both directions. */
  lemma RescaleKeepsOrder(v: Row, t: nat, u: nat)
    requires |v| > 0 && Ptp(v) > 0.0 && t < |v| && u < |v|
    ensures v[t] <= v[u] <==> Rescale(v)[t] <= Rescale(v)[u]
  {
    GainKeepsOrder(v[t], v[u], Min(v), Ptp(v));
  }

  /** A value of w that no value of w undercuts is the minimum of w. */
  lemma MinIsLeast(w: Row, k: nat)
    requires k < |w|
    requires forall t | 0 <= t < |w| :: w[k] <= w[t]
    ensures Min(w) == w[k]
  {
  }

  /** A value of w that no value of w exceeds is the maximum of w. */
  lemma MaxIsGreatest(w: Row, k: nat)
    requires k < |w|
    requires forall t | 0 <= t < |w| :: w[t] <= w[k]
    ensures Max(w) == w[k]
  {
  }

  /**
   * Because the page adds the minimum instead of subtracting it, the rescaled
   * vector runs from `2 * min * 2 ** 15 / ptp` to `(max + min) * 2 ** 15 / ptp`:
   * its spread is exactly `2 ** 15`, but it starts at 0 only when `min(v) == 0`.
   */
  lemma RescaleExtremes(v: Row)
    requires |v| > 0 && Ptp(v) > 0.0
    ensures Min(Rescale(v)) == Level(Min(v), Min(v), Ptp(v))
    ensures Max(Rescale(v)) == Level(Max(v), Min(v), Ptp(v))
    ensures Ptp(Rescale(v)) == Full
  {
    RescaleMin(v);
    RescaleMax(v);
    SpreadIsFull(Min(v), Max(v), Min(v), Ptp(v));
  }

  /** The smallest sample is rescaled to the smallest output. */
  lemma RescaleMin(v: Row)
    requires |v| > 0 && Ptp(v) > 0.0
    ensures Min(Rescale(v)) == Level(Min(v), Min(v), Ptp(v))
  {
    var out := Rescale(v);
    var lo := ArgMin(v);
    forall t | 0 <= t < |v| ensures out[lo] <= out[t] {
      RescaleKeepsOrder(v, lo, t);
    }
    MinIsLeast(out, lo);
  }

  /** The largest sample is rescaled to the largest output. */
  lemma RescaleMax(v: Row)
    requires |v| > 0 && Ptp(v) > 0.0
    ensures Max(Rescale(v)) == Level(Max(v), Min(v), Ptp(v))
  {
    var out := Rescale(v);
    var hi := ArgMax(v);
    forall t | 0 <= t < |v| ensures out[t] <= out[hi] {
      RescaleKeepsOrder(v, t, hi);
    }
    MaxIsGreatest(out, hi);
  }

  /** Two samples `p` apart are rescaled exactly `2 ** 15` apart. */
  lemma SpreadIsFull(a: real, b: real, m: real, p: real)
    requires p > 0.0 && b - a == p
    ensures Level(b, m, p) - Level(a, m, p) == Full
  {
    assert (b + m) * Full / p - (a + m) * Full / p == (b - a) * Full / p;
  }

  /**
   * The rescale forgets a positive scale of its input: `c * v` and `v` give the
   * same output, so the unknown scale of an estimated source does not reach
   * the written file.
   */
  lemma RescaleScaleFree(v: Row, c: real)
    requires |v| > 0 && Ptp(v) > 0.0 && c > 0.0
    ensures |Scaled(v, c)| > 0 && Ptp(Scaled(v, c)) > 0.0
    ensures Rescale(Scaled(v, c)) == Rescale(v)
  {
    var w := Scaled(v, c);
    ScaledMin(v, c);
    ScaledMax(v, c);
    ScaleSpread(c, Min(v), Max(v));
    assert Ptp(w) == Times(c, Ptp(v));
    forall t | 0 <= t < |v| ensures Rescale(w)[t] == Rescale(v)[t] {
      ScaleCancels(v[t], Min(v), Ptp(v), c);
      assert Rescale(w)[t] == Level(Times(c, v[t]), Times(c, Min(v)), Times(c, Ptp(v)));
    }
  }

  lemma ScaledMin(v: Row, c: real)
    requires |v| > 0 && c > 0.0
    ensures Min(Scaled(v, c)) == Times(c, Min(v))
  {
    var w := Scaled(v, c);
    var lo := ArgMin(v);
    forall t | 0 <= t < |v| ensures w[lo] <= w[t] {
      ScaleKeepsOrder(v[lo], v[t], c);
    }
    MinIsLeast(w, lo);
  }

  lemma ScaledMax(v: Row, c: real)
    requires |v| > 0 && c > 0.0
    ensures Max(Scaled(v, c)) == Times(c, Max(v))
  {
    var w := Scaled(v, c);
    var hi := ArgMax(v);
    forall t | 0 <= t < |v| ensures w[t] <= w[hi] {
      ScaleKeepsOrder(v[t], v[hi], c);
    }
    MaxIsGreatest(w, hi);
  }

  /** `c * x`. */
  function Times(c: real, x: real): real {
    c * x
  }

  /** `c * v`, sample by sample. */
  function Scaled(v: Row, c: real): (w: Row)
    ensures |w| == |v|
    ensures forall t | 0 <= t < |v| :: w[t] == Times(c, v[t])
  {
    seq(|v|, t requires 0 <= t < |v| => Times(c, v[t]))
  }

  lemma ScaleKeepsOrder(x: real, y: real, c: real)
    requires x <= y && c > 0.0
    ensures Times(c, x) <= Times(c, y)
  {
    assert c * y - c * x == c * (y - x);
  }

  lemma ScaleSpread(c: real, a: real, b: real)
    requires c > 0.0 && a < b
    ensures Times(c, b) - Times(c, a) == Times(c, b - a) > 0.0
  {
    assert c * b - c * a == c * (b - a);
  }

  lemma ScaleCancels(x: real, m: real, p: real, c: real)
    requires p > 0.0 && c > 0.0
    ensures Times(c, p) > 0.0
    ensures Level(Times(c, x), Times(c, m), Times(c, p)) == Level(x, m, p)
  {
    assert c * x + c * m == c * (x + m);
    assert (c * (x + m)) * Full == c * ((x + m) * Full);
    assert (c * ((x + m) * Full)) / (c * p) == ((x + m) * Full) / p;
  }

  /**
   * The rescale as written leaves the int16 range: the vector [1, 2] becomes
   * [65536, 98304], both above 32767.
   */
  lemma RescaleLeavesInt16Range()
    ensures Ptp([1.0, 2.0]) == 1.0
    ensures Rescale([1.0, 2.0]) == [65536.0, 98304.0]
  {
    var v := [1.0, 2.0];
    assert Min(v) == 1.0 by { MinIsLeast(v, 0); }
    assert Max(v) == 2.0 by { MaxIsGreatest(v, 1); }
  }
}

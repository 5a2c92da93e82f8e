/**
 * The numeric middle of `fast_ica`, stage after stage: read both recordings,
 * keep the first channel, cut to the shorter length, mix with A, rescale both
 * mixtures, hand the mixture frames to the separator and rescale the two
 * estimated sources.
 */
module Pipeline {
  import opened Signals
  import opened Preprocessing
  import opened Mixing
  import opened Rescaling

  /**
   * The four artifacts the page writes and plays, with the sample rate they
   * are written at.
   */
  datatype Outputs = Outputs(
    rate: int,
    mixture1: Amplitude,
    mixture2: Amplitude,
    source1: Amplitude,
    source2: Amplitude)

  /** `np.array([audio1, audio2])`: the preprocessed pair as a 2 x N source matrix. */
  function Stack(pair: (Row, Row)): (s: seq<Row>)
    requires |pair.0| == |pair.1|
    ensures TwoRows(s) && s[0] == pair.0 && s[1] == pair.1
  {
    [pair.0, pair.1]
  }

  /**
   * One separation run. `separator` stands for FastICA's
   * `fit_transform`: it receives the mixture as frames (`x.T`) and returns one
   * frame of estimated source values per input frame. Only the first file's
   * sample rate reaches the outputs.
   */
  function FastIca(w1: Wav, w2: Wav, a: Mat2, separator: seq<seq<real>> -> seq<seq<real>>)
    : (r: Result<Outputs>)
    ensures r == Separate(w1.rate, w1.data, w2.data, a, separator)
    ensures NumFrames(w1.data) == 0 || NumFrames(w2.data) == 0 ==> r.Err?
    ensures r.Ok? ==> r.value.rate == w1.rate
  {
    Separate(w1.rate, w1.data, w2.data, a, separator)
  }

  /** The run on the decoded payloads, writing its outputs at `rate`. */
  function Separate(rate: int, d1: Decoded, d2: Decoded, a: Mat2,
                    separator: seq<seq<real>> -> seq<seq<real>>): (r: Result<Outputs>)
    ensures NumFrames(d1) == 0 ==> r == Err(EmptySignal)
    ensures FirstChannel(d1).Ok? && NumFrames(d2) == 0 ==> r == Err(EmptySignal)
    ensures FirstChannel(d1).Err? ==> r == Err(FirstChannel(d1).error)
    ensures FirstChannel(d1).Ok? && FirstChannel(d2).Err? ==> r == Err(FirstChannel(d2).error)
    ensures Prepare(d1, d2).Ok? ==>
              var e := separator(Transpose(Mix(a, Stack(Prepare(d1, d2).value))));
              (r.Ok? <==> |e| > 0 && Column(e, 0).Ok? && Column(e, 1).Ok?)
    ensures FirstChannel(d1).Ok? && FirstChannel(d2).Ok? && r.Err? ==>
              r.error == MissingColumn || r.error == EmptyReduction
    ensures Prepare(d1, d2).Ok? && r.Err? ==>
              var e := separator(Transpose(Mix(a, Stack(Prepare(d1, d2).value))));
              r.error == (if e == [] then EmptyReduction else MissingColumn)
    ensures r.Ok? ==> r.value.rate == rate && Prepare(d1, d2).Ok?
    ensures r.Ok? ==>
              var x := Mix(a, Stack(Prepare(d1, d2).value));
              Normalize(x[0]) == Ok(r.value.mixture1) && Normalize(x[1]) == Ok(r.value.mixture2)
    ensures r.Ok? ==>
              var e := separator(Transpose(Mix(a, Stack(Prepare(d1, d2).value))));
              Column(e, 0).Ok? && Column(e, 1).Ok? &&
              Normalize(Column(e, 0).value) == Ok(r.value.source1) &&
              Normalize(Column(e, 1).value) == Ok(r.value.source2)
    ensures r.Ok? && r.value.mixture1.Finite? ==>
              |r.value.mixture1.samples| == MinLen(NumFrames(d1), NumFrames(d2))
    ensures r.Ok? && r.value.mixture2.Finite? ==>
              |r.value.mixture2.samples| == MinLen(NumFrames(d1), NumFrames(d2))
  {
    var pair :- Prepare(d1, d2);
    var x := Mix(a, Stack(pair));
    // Both mixture rows have N > 0 samples, so their rescale never raises.
    var mixture1 := Normalize(x[0]).value;
    var mixture2 := Normalize(x[1]).value;
    var estimate := separator(Transpose(x));
    var e1 :- Column(estimate, 0);
    var source1 :- Normalize(e1);
    var e2 :- Column(estimate, 1);
    // The second column has as many samples as the first, which passed.
    var source2 := Normalize(e2).value;
    Ok(Outputs(rate, mixture1, mixture2, source1, source2))
  }

  /** The second file's sample rate is read and dropped: it never changes a run. */
  lemma FastIcaIgnoresSecondRate(w1: Wav, w2: Wav, rate: int, a: Mat2,
                                 separator: seq<seq<real>> -> seq<seq<real>>)
    ensures FastIca(w1, w2, a, separator) == FastIca(w1, Wav(rate, w2.data), a, separator)
  {
  }

  /**
   * Each written mixture is the rescale of one row of `A @ s` over the
   * preprocessed signals, so its samples keep the order of that row.
   */
  lemma SeparateMixtureOrder(rate: int, d1: Decoded, d2: Decoded, a: Mat2,
                             separator: seq<seq<real>> -> seq<seq<real>>, t: nat, u: nat)
    ensures var r := Separate(rate, d1, d2, a, separator);
            r.Ok? && r.value.mixture1.Finite? ==>
              var x := Mix(a, Stack(Prepare(d1, d2).value));
              var out := r.value.mixture1.samples;
              t < |out| && u < |out| ==> (x[0][t] <= x[0][u] <==> out[t] <= out[u])
    ensures var r := Separate(rate, d1, d2, a, separator);
            r.Ok? && r.value.mixture2.Finite? ==>
              var x := Mix(a, Stack(Prepare(d1, d2).value));
              var out := r.value.mixture2.samples;
              t < |out| && u < |out| ==> (x[1][t] <= x[1][u] <==> out[t] <= out[u])
  {
    var r := Separate(rate, d1, d2, a, separator);
    if r.Ok? {
      var x := Mix(a, Stack(Prepare(d1, d2).value));
      if r.value.mixture1.Finite? && t < |x[0]| && u < |x[0]| {
        RescaleKeepsOrder(x[0], t, u);
      }
      if r.value.mixture2.Finite? && t < |x[1]| && u < |x[1]| {
        RescaleKeepsOrder(x[1], t, u);
      }
    }
  }

  /**
   * Each written source is the rescale of one column of the separator's
   * estimate, so its samples keep the order of that column.
   */
  lemma SeparateSourceOrder(rate: int, d1: Decoded, d2: Decoded, a: Mat2,
                            separator: seq<seq<real>> -> seq<seq<real>>, t: nat, u: nat)
    ensures var r := Separate(rate, d1, d2, a, separator);
            r.Ok? && r.value.source1.Finite? ==>
              var e := separator(Transpose(Mix(a, Stack(Prepare(d1, d2).value))));
              var out := r.value.source1.samples;
              t < |out| && u < |out| ==> (e[t][0] <= e[u][0] <==> out[t] <= out[u])
    ensures var r := Separate(rate, d1, d2, a, separator);
            r.Ok? && r.value.source2.Finite? ==>
              var e := separator(Transpose(Mix(a, Stack(Prepare(d1, d2).value))));
              var out := r.value.source2.samples;
              t < |out| && u < |out| ==> (e[t][1] <= e[u][1] <==> out[t] <= out[u])
  {
    var r := Separate(rate, d1, d2, a, separator);
    if r.Ok? {
      var e := separator(Transpose(Mix(a, Stack(Prepare(d1, d2).value))));
      var c0 := Column(e, 0).value;
      var c1 := Column(e, 1).value;
      if r.value.source1.Finite? && t < |c0| && u < |c0| {
        assert r.value.source1.samples == Rescale(c0);
        assert c0[t] == e[t][0] && c0[u] == e[u][0];
        RescaleKeepsOrder(c0, t, u);
      }
      if r.value.source2.Finite? && t < |c1| && u < |c1| {
        assert r.value.source2.samples == Rescale(c1);
        assert c1[t] == e[t][1] && c1[u] == e[u][1];
        RescaleKeepsOrder(c1, t, u);
      }
    }
  }

  /**
   * With the identity as mixing matrix the captures are the sources
   * themselves: each written mixture is the rescale of one preprocessed signal.
   */
  lemma SeparateIdentityMixing(rate: int, d1: Decoded, d2: Decoded,
                               separator: seq<seq<real>> -> seq<seq<real>>)
    ensures var r := Separate(rate, d1, d2, Identity(), separator);
            r.Ok? ==>
              var pair := Prepare(d1, d2).value;
              Normalize(pair.0) == Ok(r.value.mixture1) && Normalize(pair.1) == Ok(r.value.mixture2)
  {
    if Separate(rate, d1, d2, Identity(), separator).Ok? {
      MixIdentity(Stack(Prepare(d1, d2).value));
    }
  }

  /**
   * The separator's view `x.T` loses nothing: column j of the frames is row j
   * of the mixture.
   */
  lemma ColumnOfTranspose(x: seq<Row>, j: nat)
    requires TwoRows(x) && j < 2
    ensures Column(Transpose(x), j) == Ok(x[j])
  {
    var c := Column(Transpose(x), j);
    assert c.Ok?;
    assert c.value == x[j];
  }
}

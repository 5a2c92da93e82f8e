/**
 * Preprocessing of the two decoded recordings in `fast_ica`: keep the first
 * channel of a multi-channel recording, then cut both recordings to the
 * length of the shorter one.
 */
module Preprocessing {
  import opened Signals

  /**
   * A decoded WAV payload. A mono file decodes to one sample per frame; a file
   * with several channels decodes to one array of channel values per frame.
   */
  datatype Decoded = Mono(samples: Row) | Multi(frames: seq<seq<real>>)

  /** What reading a WAV file yields: its sample rate and its decoded payload. */
  datatype Wav = Wav(rate: int, data: Decoded)

  /** `len(audio)`: the number of frames of a decoded payload. */
  function NumFrames(d: Decoded): nat {
    match d
    case Mono(s) => |s|
    case Multi(f) => |f|
  }

  /**
   * The column slice `frames[:, j]`: entry j of every frame, in frame order.
   * It fails with MissingColumn when some frame has no entry j.
   */
  function Column(frames: seq<seq<real>>, j: nat): (r: Result<Row>)
    ensures r.Ok? <==> forall i | 0 <= i < |frames| :: j < |frames[i]|
    ensures r.Ok? ==> |r.value| == |frames|
    ensures r.Ok? ==> forall i | 0 <= i < |frames| :: r.value[i] == frames[i][j]
    ensures r.Err? ==> r.error == MissingColumn
  {
    if frames == [] then Ok([])
    else if |frames[0]| <= j then Err(MissingColumn)
    else
      match Column(frames[1..], j)
      case Ok(rest) => Ok([frames[0][j]] + rest)
      case Err(e) => Err(e)
  }

  /**
   * The mono/stereo check: a payload whose first frame is an array is reduced
   * to its first channel, a mono payload is kept as it is. Looking at the
   * first frame fails on a payload without frames.
   */
  function FirstChannel(d: Decoded): (r: Result<Row>)
    ensures NumFrames(d) == 0 <==> r == Err(EmptySignal)
    ensures d.Mono? && NumFrames(d) > 0 ==> r == Ok(d.samples)
    ensures d.Multi? && NumFrames(d) > 0 ==>
              (r.Ok? <==> forall i | 0 <= i < |d.frames| :: 0 < |d.frames[i]|)
    ensures d.Multi? && r.Ok? ==>
              |r.value| == |d.frames| && forall i | 0 <= i < |d.frames| :: r.value[i] == d.frames[i][0]
    ensures d.Multi? && NumFrames(d) > 0 && r.Err? ==> r.error == MissingColumn
    ensures r.Ok? ==> |r.value| == NumFrames(d) > 0
  {
    match d
    case Mono(s) => if |s| == 0 then Err(EmptySignal) else Ok(s)
    case Multi(f) => if |f| == 0 then Err(EmptySignal) else Column(f, 0)
  }

  /**
   * `short = min(len(a), len(b)); a[:short], b[:short]`: both results have the
   * shorter length and are prefixes of their inputs, so the shorter input comes
   * through whole and the longer one loses only trailing samples.
   */
  function Truncate(a: Row, b: Row): (r: (Row, Row))
    ensures |r.0| == |r.1|
    ensures |r.0| <= |a| && |r.0| <= |b|
    ensures |r.0| == |a| || |r.0| == |b|
    ensures r.0 <= a && r.1 <= b
    ensures |a| <= |b| ==> r.0 == a
    ensures |b| <= |a| ==> r.1 == b
  {
    var short := MinLen(|a|, |b|);
    (a[..short], b[..short])
  }

  /**
   * The whole preprocessing step: channel selection on the first recording,
   * then on the second, then truncation of both to the shorter length.
   */
  function Prepare(d1: Decoded, d2: Decoded): (r: Result<(Row, Row)>)
    ensures NumFrames(d1) == 0 ==> r == Err(EmptySignal)
    ensures FirstChannel(d1).Ok? && NumFrames(d2) == 0 ==> r == Err(EmptySignal)
    ensures r.Ok? <==> FirstChannel(d1).Ok? && FirstChannel(d2).Ok?
    ensures FirstChannel(d1).Err? ==> r == Err(FirstChannel(d1).error)
    ensures FirstChannel(d1).Ok? && FirstChannel(d2).Err? ==> r == Err(FirstChannel(d2).error)
    ensures r.Ok? ==> |r.value.0| == |r.value.1| == MinLen(NumFrames(d1), NumFrames(d2)) > 0
    ensures r.Ok? ==> r.value.0 <= FirstChannel(d1).value && r.value.1 <= FirstChannel(d2).value
  {
    var a1 :- FirstChannel(d1);
    var a2 :- FirstChannel(d2);
    Ok(Truncate(a1, a2))
  }

  /** Frame by frame, the first-channel selection keeps exactly channel 0 of a multi-channel payload. */
  lemma {:induction false} FirstChannelOfStereo(left: Row, right: Row)
    requires |left| == |right| > 0
    ensures FirstChannel(Multi(Interleave(left, right))) == Ok(left)
  {
    var r := FirstChannel(Multi(Interleave(left, right)));
    assert r.Ok?;
    assert |r.value| == |left|;
    forall i | 0 <= i < |left| ensures r.value[i] == left[i] {
      assert Interleave(left, right)[i] == [left[i], right[i]];
    }
    assert r.value == left;
  }

  /** The frames a two-channel WAV file decodes to: one `[left, right]` array per frame. */
  function Interleave(left: Row, right: Row): (f: seq<seq<real>>)
    requires |left| == |right|
    ensures |f| == |left|
    ensures forall i | 0 <= i < |f| :: f[i] == [left[i], right[i]]
  {
    seq(|left|, i requires 0 <= i < |left| => [left[i], right[i]])
  }

  /** Two recordings of 500 and 800 frames leave two signals of 500 samples each. */
  lemma PrepareUsesShorterLength(a: Row, b: Row)
    requires |a| == 500 && |b| == 800
    ensures Prepare(Mono(a), Mono(b)) == Ok((a, b[..500]))
  {
  }
}

/**
 * The per-sample mapping from raw values to display points, for the time
 * view, the spectrum view and the XY view, and the loops that append the
 * mapped points of a whole trace to a channel graph.
 * Arithmetic is over `real`: the source computes in `float`/`double`.
 */
module ChannelTransform {

  import opened Scope
  import opened Frames

  /** Half the number of horizontal screen divisions (DIVS_TIME / 2): the
      horizontal shift that centres a trace. Its value is not needed. */
  const HalfTimeDivs: real

  /** Horizontal position of the point drawn for sample number `position`. */
  function TimeX(position: nat, factor: real): real
  {
    position as real * factor - HalfTimeDivs
  }

  /** -1 for an inverted channel, +1 otherwise. */
  function Sign(inverted: bool): real
  {
    if inverted then -1.0 else 1.0
  }

  /** Display value of a voltage sample. */
  function VoltageY(v: real, ch: VoltageChannel): real
    requires ch.gain != 0.0
  {
    v / ch.gain * Sign(ch.inverted) + ch.offset
  }

  /** The raw sample behind a displayed voltage value: undoes VoltageY. */
  function VoltageRaw(y: real, ch: VoltageChannel): real
  {
    (y - ch.offset) * Sign(ch.inverted) * ch.gain
  }

  /** The voltage mapping loses nothing: every raw value is recovered from
      the displayed one, so two different samples never share a height. */
  lemma VoltageRoundTrip(v: real, ch: VoltageChannel)
    requires ch.gain != 0.0
    ensures VoltageRaw(VoltageY(v, ch), ch) == v
  {
    var q := v / ch.gain;
    assert q * ch.gain == v;
    assert Sign(ch.inverted) * Sign(ch.inverted) == 1.0;
    calc {
      VoltageRaw(VoltageY(v, ch), ch);
      (q * Sign(ch.inverted)) * Sign(ch.inverted) * ch.gain;
      q * (Sign(ch.inverted) * Sign(ch.inverted)) * ch.gain;
      q * ch.gain;
    }
  }

  /** Display value of a spectrum sample. */
  function SpectrumY(v: real, ch: SpectrumChannel): real
    requires ch.magnitude != 0.0
  {
    v / ch.magnitude + ch.offset
  }

  /** The raw spectrum value behind a displayed one: undoes SpectrumY. */
  function SpectrumRaw(y: real, ch: SpectrumChannel): real
  {
    (y - ch.offset) * ch.magnitude
  }

  lemma SpectrumRoundTrip(v: real, ch: SpectrumChannel)
    requires ch.magnitude != 0.0
    ensures SpectrumRaw(SpectrumY(v, ch), ch) == v
  {
    assert (v / ch.magnitude) * ch.magnitude == v;
  }

  /** The time-view points of the samples `s`, numbered from `position`. */
  function VoltagePoints(s: seq<real>, position: nat, factor: real, ch: VoltageChannel): (r: ChannelGraph)
    requires ch.gain != 0.0
    ensures |r| == |s|
    ensures forall i :: 0 <= i < |s| ==> r[i] == Point(TimeX(position + i, factor), VoltageY(s[i], ch), 0.0)
    decreases |s|
  {
    if s == [] then []
    else [Point(TimeX(position, factor), VoltageY(s[0], ch), 0.0)] + VoltagePoints(s[1..], position + 1, factor, ch)
  }

  /** The spectrum-view points of the samples `s`, numbered from `position`. */
  function SpectrumPoints(s: seq<real>, position: nat, factor: real, ch: SpectrumChannel): (r: ChannelGraph)
    requires ch.magnitude != 0.0
    ensures |r| == |s|
    ensures forall i :: 0 <= i < |s| ==> r[i] == Point(TimeX(position + i, factor), SpectrumY(s[i], ch), 0.0)
    decreases |s|
  {
    if s == [] then []
    else [Point(TimeX(position, factor), SpectrumY(s[0], ch), 0.0)] + SpectrumPoints(s[1..], position + 1, factor, ch)
  }

  /** The XY points of two channels, paired sample by sample; the longer
      channel's extra samples are dropped. */
  function XYPoints(xs: seq<real>, ys: seq<real>, cx: VoltageChannel, cy: VoltageChannel): (r: ChannelGraph)
    requires cx.gain != 0.0 && cy.gain != 0.0
    ensures |r| == if |xs| < |ys| then |xs| else |ys|
    ensures forall i :: 0 <= i < |r| ==> r[i] == Point(VoltageY(xs[i], cx), VoltageY(ys[i], cy), 0.0)
    decreases |xs|
  {
    if xs == [] || ys == [] then []
    else [Point(VoltageY(xs[0], cx), VoltageY(ys[0], cy), 0.0)] + XYPoints(xs[1..], ys[1..], cx, cy)
  }

  /** The time-view fill loop: appends one point per sample after the
      first `skip` ones; point `i` comes from sample `skip + i`. */
  method AppendVoltagePoints(target: ChannelGraph, samples: SampleValues, skip: nat, timebase: real, ch: VoltageChannel)
    returns (r: ChannelGraph)
    requires skip <= |samples.sample| && timebase != 0.0 && ch.gain != 0.0
    ensures |r| == |target| + |samples.sample| - skip
    ensures r == target + VoltagePoints(samples.sample[skip..], 0, samples.interval / timebase, ch)
  {
    var factor := samples.interval / timebase;
    var sampleCount := |samples.sample| - skip;
    r := target;
    var position := 0;
    while position < sampleCount
      invariant 0 <= position <= sampleCount
      invariant |r| == |target| + position && r[..|target|] == target
      invariant forall i :: 0 <= i < position ==>
        r[|target| + i] == Point(TimeX(i, factor), VoltageY(samples.sample[skip + i], ch), 0.0)
    {
      r := r + [Point(TimeX(position, factor), VoltageY(samples.sample[skip + position], ch), 0.0)];
      position := position + 1;
    }
    ghost var expected := target + VoltagePoints(samples.sample[skip..], 0, factor, ch);
    assert forall i :: 0 <= i < |r| ==> r[i] == expected[i];
  }

  /** The spectrum fill loop: one point per sample, in order. */
  method AppendSpectrumPoints(target: ChannelGraph, samples: SampleValues, frequencybase: real, ch: SpectrumChannel)
    returns (r: ChannelGraph)
    requires frequencybase != 0.0 && ch.magnitude != 0.0
    ensures |r| == |target| + |samples.sample|
    ensures r == target + SpectrumPoints(samples.sample, 0, samples.interval / frequencybase, ch)
  {
    var factor := samples.interval / frequencybase;
    var sampleCount := |samples.sample|;
    r := target;
    var position := 0;
    while position < sampleCount
      invariant 0 <= position <= sampleCount
      invariant |r| == |target| + position && r[..|target|] == target
      invariant forall i :: 0 <= i < position ==>
        r[|target| + i] == Point(TimeX(i, factor), SpectrumY(samples.sample[i], ch), 0.0)
    {
      r := r + [Point(TimeX(position, factor), SpectrumY(samples.sample[position], ch), 0.0)];
      position := position + 1;
    }
    ghost var expected := target + SpectrumPoints(samples.sample, 0, factor, ch);
    assert forall i :: 0 <= i < |r| ==> r[i] == expected[i];
  }

  /** The XY fill loop: appends min(|xs|, |ys|) paired points. */
  method AppendXYPoints(target: ChannelGraph, xs: seq<real>, ys: seq<real>, cx: VoltageChannel, cy: VoltageChannel)
    returns (r: ChannelGraph)
    requires cx.gain != 0.0 && cy.gain != 0.0
    ensures |r| == |target| + (if |xs| < |ys| then |xs| else |ys|)
    ensures r == target + XYPoints(xs, ys, cx, cy)
  {
    var sampleCount := if |xs| < |ys| then |xs| else |ys|;
    r := target;
    var position := 0;
    while position < sampleCount
      invariant 0 <= position <= sampleCount
      invariant |r| == |target| + position && r[..|target|] == target
      invariant forall i :: 0 <= i < position ==>
        r[|target| + i] == Point(VoltageY(xs[i], cx), VoltageY(ys[i], cy), 0.0)
    {
      r := r + [Point(VoltageY(xs[position], cx), VoltageY(ys[position], cy), 0.0)];
      position := position + 1;
    }
    ghost var expected := target + XYPoints(xs, ys, cx, cy);
    assert forall i :: 0 <= i < |r| ==> r[i] == expected[i];
  }
}

/**
 * What one frame of the graph generator produces: the trigger flag and skip
 * offset, the graph (or the error) each channel yields, and the shape of the
 * whole output in the time view (TY) and in the XY view.
 */
module GraphSpec {

  import opened Scope
  import opened Frames
  import opened ChannelTransform
  import opened TraceCache

  /** The largest sample count a trace may have. */
  const MaxSampleCount: nat := 500000

  /** Why a frame's graph generation stops. `SkipBeyondSamples` stands for
      a skip offset larger than the trace. With a 64-bit `size_t` the
      unsigned sample count then wraps around to nearly 2^64 and the
      capacity request for that many points fails before any point is
      drawn; with a 32-bit `size_t` the fill loop reads before the trace. */
  datatype FrameError = SampleCountTooHigh | SkipBeyondSamples

  datatype Result<T> = Ok(value: T) | Err(error: FrameError)

  /** Which graph list was being filled when a frame was abandoned. */
  datatype View = VoltageView | SpectrumView

  datatype Status = Done | Aborted(view: View, channel: nat, error: FrameError)

  /** `std::vector::resize`: keeps the first `n` graphs and pads with empty
      ones. */
  function Resize(gs: seq<ChannelGraph>, n: nat): (r: seq<ChannelGraph>)
    ensures |r| == n
    ensures forall k :: 0 <= k < n && k < |gs| ==> r[k] == gs[k]
    ensures forall k :: |gs| <= k < n ==> r[k] == []
  {
    if n <= |gs| then gs[..n] else gs + seq(n - |gs|, _ => [])
  }

  // ---------------------------------------------------------------------
  // Trigger flag and skip offset
  // ---------------------------------------------------------------------

  /** The trigger position used for the frame: the software trigger's answer
      when the device triggers in software and the trigger source is one of
      the frame's channels, all zero otherwise. */
  function TriggerOf(isSoftwareTriggerDevice: bool, scope: ScopeSettings, result: PPresult, computed: TriggerPosition): (r: TriggerPosition)
    ensures !isSoftwareTriggerDevice || scope.triggerSource >= result.ChannelCount() ==> r == TriggerPosition(0, 0, 0)
    ensures isSoftwareTriggerDevice && scope.triggerSource < result.ChannelCount() ==> r == computed
  {
    if isSoftwareTriggerDevice && scope.triggerSource < result.ChannelCount() then computed
    else TriggerPosition(0, 0, 0)
  }

  /** The frame's skip offset: trigger start minus pre-trigger samples, in
      unsigned arithmetic. */
  function SkipOf(p: TriggerPosition): (r: u32)
    ensures p.pre <= p.start ==> r == p.start - p.pre
    ensures p.start < p.pre ==> r == 0x1_0000_0000 - (p.pre - p.start)
  {
    Wrap32(p.start - p.pre)
  }

  /** The frame counts as triggered when more samples follow the trigger
      point than precede it. */
  predicate TriggeredBy(p: TriggerPosition)
  {
    p.post > p.pre
  }

  /** Without software triggering, or with a trigger source beyond the
      frame's channels, the frame is never triggered and the skip is 0. */
  lemma NoSoftwareTriggerMeansUntriggered(isSoftwareTriggerDevice: bool, scope: ScopeSettings, result: PPresult, computed: TriggerPosition)
    requires !isSoftwareTriggerDevice || scope.triggerSource >= result.ChannelCount()
    ensures !TriggeredBy(TriggerOf(isSoftwareTriggerDevice, scope, result, computed))
    ensures SkipOf(TriggerOf(isSoftwareTriggerDevice, scope, result, computed)) == 0
  {
  }

  // ---------------------------------------------------------------------
  // Per-channel inputs
  // ---------------------------------------------------------------------

  /** `useVoltSamplesOf`: the channel's voltage samples when the channel is
      shown and the frame has data for it, the empty trace otherwise. */
  function UseVoltSamplesOf(scope: ScopeSettings, result: PPresult, channel: nat): (r: SampleValues)
    requires channel < |scope.voltage|
    ensures scope.voltage[channel].used && result.DataOf(channel).Some? ==> r == result.DataOf(channel).value.voltage
    ensures !scope.voltage[channel].used || result.DataOf(channel).None? ==> r.sample == []
  {
    if !scope.voltage[channel].used || result.DataOf(channel).None? then NoSamples
    else result.DataOf(channel).value.voltage
  }

  /** The voltage input of a channel for the triggered selector: None when
      the channel is unused or has no data. */
  function VoltInput(scope: ScopeSettings, result: PPresult, channel: nat): (r: Option<SampleValues>)
    requires channel < |scope.voltage|
    ensures r.None? <==> !scope.voltage[channel].used || result.DataOf(channel).None?
    ensures r.Some? ==> r.value == UseVoltSamplesOf(scope, result, channel)
    ensures r.None? ==> UseVoltSamplesOf(scope, result, channel).sample == []
  {
    if !scope.voltage[channel].used || result.DataOf(channel).None? then None
    else Some(result.DataOf(channel).value.voltage)
  }

  /** The voltage inputs of every voltage channel, in channel order. */
  function VoltInputs(scope: ScopeSettings, result: PPresult): (r: seq<Option<SampleValues>>)
    ensures |r| == |scope.voltage|
    ensures forall k :: 0 <= k < |scope.voltage| ==> r[k] == VoltInput(scope, result, k)
  {
    seq(|scope.voltage|, k requires 0 <= k < |scope.voltage| => VoltInput(scope, result, k))
  }

  /** The spectrum input of a channel: None when its spectrum is not shown
      or the frame has no data for it. */
  function SpectrumInput(scope: ScopeSettings, result: PPresult, channel: nat): (r: Option<SampleValues>)
    requires channel < |scope.spectrum|
    ensures r.None? <==> !scope.spectrum[channel].used || result.DataOf(channel).None?
    ensures r.Some? ==> channel < result.ChannelCount() && r.value == result.data[channel].value.spectrum
  {
    if !scope.spectrum[channel].used || result.DataOf(channel).None? then None
    else Some(result.DataOf(channel).value.spectrum)
  }

  /** The spectrum loop runs over the voltage channels. */
  function SpectrumInputs(scope: ScopeSettings, result: PPresult): (r: seq<Option<SampleValues>>)
    requires |scope.voltage| <= |scope.spectrum|
    ensures |r| == |scope.voltage|
    ensures forall k :: 0 <= k < |scope.voltage| ==> r[k] == SpectrumInput(scope, result, k)
  {
    seq(|scope.voltage|, k requires 0 <= k < |scope.voltage| => SpectrumInput(scope, result, k))
  }

  /** The voltage channel loop of a frame, starting from `cache`. */
  function VoltFrameOf(cache: VoltCache, isSoftwareTriggerDevice: bool, scope: ScopeSettings, result: PPresult, computed: TriggerPosition): VoltFrame
  {
    var p := TriggerOf(isSoftwareTriggerDevice, scope, result, computed);
    VoltFrame(cache, SkipOf(p), VoltInputs(scope, result), TriggeredBy(p), scope.triggerMode)
  }

  // ---------------------------------------------------------------------
  // One channel's graph
  // ---------------------------------------------------------------------

  /** The time-view graph of one channel, given the trace and skip its
      selector chose and the graph already in the slot. */
  function VoltGraph(base: ChannelGraph, c: VoltChoice, ch: VoltageChannel, timebase: real): (r: Result<ChannelGraph>)
    requires ch.gain != 0.0 && timebase != 0.0
    ensures |c.trace.sample| == 0 ==> r == Ok([])
    ensures r.Err? <==> 0 < |c.trace.sample| && (|c.trace.sample| > MaxSampleCount || c.skip > |c.trace.sample|)
    ensures r == Err(SampleCountTooHigh) <==> |c.trace.sample| > MaxSampleCount
    ensures r.Ok? && 0 < |c.trace.sample| ==>
      |r.value| == |base| + |c.trace.sample| - c.skip && r.value[..|base|] == base &&
      forall i :: |base| <= i < |r.value| ==>
        r.value[i] == Point(TimeX(i - |base|, c.trace.interval / timebase), VoltageY(c.trace.sample[c.skip + i - |base|], ch), 0.0)
  {
    var n := |c.trace.sample|;
    if n == 0 then Ok([])
    else if n > MaxSampleCount then Err(SampleCountTooHigh)
    else if c.skip > n then Err(SkipBeyondSamples)
    else Ok(base + VoltagePoints(c.trace.sample[c.skip..], 0, c.trace.interval / timebase, ch))
  }

  /** The spectrum graph of one channel: no skip, frequency base as divisor. */
  function SpectrumGraph(base: ChannelGraph, trace: SampleValues, ch: SpectrumChannel, frequencybase: real): (r: Result<ChannelGraph>)
    requires ch.magnitude != 0.0 && frequencybase != 0.0
    ensures |trace.sample| == 0 ==> r == Ok([])
    ensures r.Err? <==> |trace.sample| > MaxSampleCount
    ensures r.Err? ==> r.error == SampleCountTooHigh
    ensures r.Ok? && 0 < |trace.sample| ==>
      |r.value| == |base| + |trace.sample| && r.value[..|base|] == base &&
      forall i :: |base| <= i < |r.value| ==>
        r.value[i] == Point(TimeX(i - |base|, trace.interval / frequencybase), SpectrumY(trace.sample[i - |base|], ch), 0.0)
  {
    var n := |trace.sample|;
    if n == 0 then Ok([])
    else if n > MaxSampleCount then Err(SampleCountTooHigh)
    else Ok(base + SpectrumPoints(trace.sample, 0, trace.interval / frequencybase, ch))
  }

  /** The sample ceiling is inclusive: 500000 samples are drawn, 500001 are
      refused, before the skip is taken into account. */
  lemma CeilingIsInclusive(base: ChannelGraph, c: VoltChoice, ch: VoltageChannel, timebase: real)
    requires ch.gain != 0.0 && timebase != 0.0
    requires |c.trace.sample| == MaxSampleCount + 1 || (|c.trace.sample| == MaxSampleCount && c.skip <= MaxSampleCount)
    ensures VoltGraph(base, c, ch, timebase).Ok? <==> |c.trace.sample| == MaxSampleCount
  {
  }

  // ---------------------------------------------------------------------
  // The whole time view
  // ---------------------------------------------------------------------

  function VoltChannelGraph(f: VoltFrame, base: seq<ChannelGraph>, chans: seq<VoltageChannel>, timebase: real, k: nat): Result<ChannelGraph>
    requires k < |f.inputs| && k < |base| && k < |chans|
    requires chans[k].gain != 0.0 && timebase != 0.0
  {
    VoltGraph(base[k], VoltChannelChoice(f, k), chans[k], timebase)
  }

  /** The state the voltage builder leaves: either every channel got the
      graph its chosen trace gives, or the first channel whose trace is
      refused aborts the frame; channels from there on keep the graph the
      slot had, and the cache reflects the channels selected so far
      (the refused one included). */
  ghost predicate VoltageOutcome(f: VoltFrame, base: seq<ChannelGraph>, chans: seq<VoltageChannel>, timebase: real,
                                 status: Status, graphs: seq<ChannelGraph>, cache: VoltCache, skip: u32)
  {
    var n := |chans|;
    |f.inputs| == n && |base| == n && |graphs| == n && timebase != 0.0 &&
    (forall k :: 0 <= k < n ==> chans[k].gain != 0.0) &&
    match status
    case Done =>
      (forall k :: 0 <= k < n ==> VoltChannelGraph(f, base, chans, timebase, k) == Ok(graphs[k])) &&
      VoltCacheAfter(f, n, cache) && skip == SkipEntering(f, n)
    case Aborted(view, channel, error) =>
      view == VoltageView && channel < n &&
      VoltChannelGraph(f, base, chans, timebase, channel) == Err(error) &&
      (forall k :: 0 <= k < channel ==> VoltChannelGraph(f, base, chans, timebase, k) == Ok(graphs[k])) &&
      (forall k :: channel <= k < n ==> graphs[k] == base[k]) &&
      VoltCacheAfter(f, channel + 1, cache) && skip == SkipEntering(f, channel + 1)
  }

  /** VoltageOutcome for a whole frame, stated from what the builder starts
      with: the cache and graph list before the frame, the settings and the
      trigger position the software trigger computed. */
  ghost predicate VoltageFrameOutcome(cache0: VoltCache, graphs0: seq<ChannelGraph>, isSoftwareTriggerDevice: bool,
                                      scope: ScopeSettings, result: PPresult, computed: TriggerPosition,
                                      status: Status, graphs: seq<ChannelGraph>, cache: VoltCache, skip: u32)
  {
    VoltageOutcome(VoltFrameOf(cache0, isSoftwareTriggerDevice, scope, result, computed),
                   Resize(graphs0, |scope.voltage|), scope.voltage, scope.timebase, status, graphs, cache, skip)
  }

  /** The state of the voltage channel loop before channel `channel`: the
      channels below it are drawn, the others keep their slot, and the cache
      and shared skip are those the selection so far leaves. */
  ghost predicate VoltagePrefix(f: VoltFrame, base: seq<ChannelGraph>, chans: seq<VoltageChannel>, timebase: real,
                                channel: nat, graphs: seq<ChannelGraph>, cache: VoltCache, skip: u32)
  {
    var n := |chans|;
    |f.inputs| == n && |base| == n && |graphs| == n && timebase != 0.0 && channel <= n &&
    (forall k :: 0 <= k < n ==> chans[k].gain != 0.0) &&
    (forall k :: 0 <= k < channel ==> VoltChannelGraph(f, base, chans, timebase, k) == Ok(graphs[k])) &&
    (forall k :: channel <= k < n ==> graphs[k] == base[k]) &&
    VoltCacheAfter(f, channel, cache) && skip == SkipEntering(f, channel)
  }

  /** Before the first channel nothing is drawn, and the cache and skip are
      those the frame starts with. */
  lemma VoltagePrefixStart(f: VoltFrame, base: seq<ChannelGraph>, chans: seq<VoltageChannel>, timebase: real)
    requires |f.inputs| == |chans| == |base| && timebase != 0.0 && VoltWellSized(f.cache)
    requires forall k :: 0 <= k < |chans| ==> chans[k].gain != 0.0
    ensures VoltagePrefix(f, base, chans, timebase, 0, base, f.cache, f.skip)
  {
  }

  /** A loop that has drawn every channel has completed the voltage view. */
  lemma VoltagePrefixDone(f: VoltFrame, base: seq<ChannelGraph>, chans: seq<VoltageChannel>, timebase: real,
                          graphs: seq<ChannelGraph>, cache: VoltCache, skip: u32)
    requires VoltagePrefix(f, base, chans, timebase, |chans|, graphs, cache, skip)
    ensures VoltageOutcome(f, base, chans, timebase, Done, graphs, cache, skip)
  {
  }

  /** The facts that make up an aborted voltage outcome, one by one. */
  lemma VoltageAbortedAt(f: VoltFrame, base: seq<ChannelGraph>, chans: seq<VoltageChannel>, timebase: real,
                         channel: nat, error: FrameError, graphs: seq<ChannelGraph>, cache: VoltCache, skip: u32)
    requires |f.inputs| == |chans| == |base| == |graphs| && timebase != 0.0
    requires forall k :: 0 <= k < |chans| ==> chans[k].gain != 0.0
    requires channel < |chans| && VoltChannelGraph(f, base, chans, timebase, channel) == Err(error)
    requires forall k :: 0 <= k < channel ==> VoltChannelGraph(f, base, chans, timebase, k) == Ok(graphs[k])
    requires forall k :: channel <= k < |chans| ==> graphs[k] == base[k]
    requires VoltCacheAfter(f, channel + 1, cache) && skip == SkipEntering(f, channel + 1)
    ensures VoltageOutcome(f, base, chans, timebase, Aborted(VoltageView, channel, error), graphs, cache, skip)
  {
  }

  /** The spectrum counterpart of VoltageOutcome. The graph list has one slot
      per spectrum channel; only the slots of voltage channels are visited. */
  ghost predicate SpectrumOutcome(f: SpecFrame, base: seq<ChannelGraph>, chans: seq<SpectrumChannel>, frequencybase: real,
                                  status: Status, graphs: seq<ChannelGraph>, cache: SpecCache)
  {
    var n := |f.inputs|;
    n <= |chans| && |base| == |chans| && |graphs| == |chans| && frequencybase != 0.0 &&
    (forall k :: 0 <= k < |chans| ==> chans[k].magnitude != 0.0) &&
    (forall k :: n <= k < |chans| ==> graphs[k] == base[k]) &&
    match status
    case Done =>
      (forall k :: 0 <= k < n ==> SpectrumGraph(base[k], SpecChannelChoice(f, k).trace, chans[k], frequencybase) == Ok(graphs[k])) &&
      SpecCacheAfter(f, n, cache)
    case Aborted(view, channel, error) =>
      view == SpectrumView && channel < n &&
      SpectrumGraph(base[channel], SpecChannelChoice(f, channel).trace, chans[channel], frequencybase) == Err(error) &&
      (forall k :: 0 <= k < channel ==> SpectrumGraph(base[k], SpecChannelChoice(f, k).trace, chans[k], frequencybase) == Ok(graphs[k])) &&
      (forall k :: channel <= k < n ==> graphs[k] == base[k]) &&
      SpecCacheAfter(f, channel + 1, cache)
  }

  /** The spectrum counterpart of VoltagePrefix. */
  ghost predicate SpectrumPrefix(f: SpecFrame, base: seq<ChannelGraph>, chans: seq<SpectrumChannel>, frequencybase: real,
                                 channel: nat, graphs: seq<ChannelGraph>, cache: SpecCache)
  {
    var n := |f.inputs|;
    n <= |chans| && |base| == |chans| && |graphs| == |chans| && frequencybase != 0.0 && channel <= n &&
    (forall k :: 0 <= k < |chans| ==> chans[k].magnitude != 0.0) &&
    (forall k :: 0 <= k < channel ==> SpectrumGraph(base[k], SpecChannelChoice(f, k).trace, chans[k], frequencybase) == Ok(graphs[k])) &&
    (forall k :: channel <= k < |chans| ==> graphs[k] == base[k]) &&
    SpecCacheAfter(f, channel, cache)
  }

  lemma SpectrumPrefixStart(f: SpecFrame, base: seq<ChannelGraph>, chans: seq<SpectrumChannel>, frequencybase: real)
    requires |f.inputs| <= |chans| == |base| && frequencybase != 0.0 && SpecWellSized(f.cache)
    requires forall k :: 0 <= k < |chans| ==> chans[k].magnitude != 0.0
    ensures SpectrumPrefix(f, base, chans, frequencybase, 0, base, f.cache)
  {
  }

  lemma SpectrumPrefixDone(f: SpecFrame, base: seq<ChannelGraph>, chans: seq<SpectrumChannel>, frequencybase: real,
                           graphs: seq<ChannelGraph>, cache: SpecCache)
    requires SpectrumPrefix(f, base, chans, frequencybase, |f.inputs|, graphs, cache)
    ensures SpectrumOutcome(f, base, chans, frequencybase, Done, graphs, cache)
  {
  }

  /** A refused spectrum channel ends the frame: the graphs are those of the
      loop so far, the cache includes the refused channel's selection. */
  lemma SpectrumAbortedAt(f: SpecFrame, base: seq<ChannelGraph>, chans: seq<SpectrumChannel>, frequencybase: real,
                          channel: nat, error: FrameError, graphs: seq<ChannelGraph>, before: SpecCache, after: SpecCache)
    requires SpectrumPrefix(f, base, chans, frequencybase, channel, graphs, before)
    requires channel < |f.inputs| && SpecCacheAfter(f, channel + 1, after)
    requires SpectrumGraph(base[channel], SpecChannelChoice(f, channel).trace, chans[channel], frequencybase) == Err(error)
    ensures SpectrumOutcome(f, base, chans, frequencybase, Aborted(SpectrumView, channel, error), graphs, after)
  {
  }

  /** In a completed time view, a channel that is unused or has no data is
      drawn as the empty graph and its cache entry is invalidated. */
  lemma UnusedChannelIsCleared(f: VoltFrame, base: seq<ChannelGraph>, chans: seq<VoltageChannel>, timebase: real,
                               graphs: seq<ChannelGraph>, cache: VoltCache, skip: u32, k: nat)
    requires VoltageOutcome(f, base, chans, timebase, Done, graphs, cache, skip)
    requires k < |chans| && f.inputs[k].None?
    ensures graphs[k] == []
    ensures !VoltEntryOf(cache, k).valid
  {
    assert VoltChannelGraph(f, base, chans, timebase, k) == Ok(graphs[k]);
    assert VoltEntryOf(cache, k) == VoltChannelChoice(f, k).entry;
  }

  /** In a completed triggered time view, every channel with data shows its
      new trace with the frame's skip: `count - skip` points, point `i` from
      sample `skip + i`, appended to what the slot held; and the cache now
      remembers that trace and skip. */
  lemma TriggeredFrameDrawsNewTrace(f: VoltFrame, base: seq<ChannelGraph>, chans: seq<VoltageChannel>, timebase: real,
                                    graphs: seq<ChannelGraph>, cache: VoltCache, skip: u32, k: nat)
    requires VoltageOutcome(f, base, chans, timebase, Done, graphs, cache, skip)
    requires f.triggered && k < |chans| && f.inputs[k].Some? && 0 < |f.inputs[k].value.sample|
    ensures var s := f.inputs[k].value;
      f.skip <= |s.sample| &&
      |graphs[k]| == |base[k]| + |s.sample| - f.skip && graphs[k][..|base[k]|] == base[k] &&
      (forall i :: |base[k]| <= i < |graphs[k]| ==>
        graphs[k][i] == Point(TimeX(i - |base[k]|, s.interval / timebase), VoltageY(s.sample[f.skip + i - |base[k]|], chans[k]), 0.0))
    ensures VoltEntryOf(cache, k) == VoltEntry(f.inputs[k].value, f.skip, true)
    ensures skip == f.skip
  {
    TriggeredFrameChoice(f, k);
    SkipWithoutHold(f, |chans|);
    assert VoltChannelGraph(f, base, chans, timebase, k) == Ok(graphs[k]);
    assert VoltEntryOf(cache, k) == VoltChannelChoice(f, k).entry;
  }

  /** A completed triggered time view followed by an untriggered NORMAL one:
      each channel with data in both frames gets the same graph as in the
      first frame (same trace, same skip, same slot contents). */
  lemma NormalModeRepeatsTriggeredGraph(f1: VoltFrame, base: seq<ChannelGraph>, chans: seq<VoltageChannel>, timebase: real,
                                        graphs1: seq<ChannelGraph>, skip1: u32, f2: VoltFrame, k: nat)
    requires VoltageOutcome(f1, base, chans, timebase, Done, graphs1, f2.cache, skip1)
    requires f1.triggered && k < |chans| && f1.inputs[k].Some?
    requires !f2.triggered && f2.mode == Normal && |f2.inputs| == |chans| && f2.inputs[k].Some?
    ensures VoltChannelGraph(f2, base, chans, timebase, k) == VoltChannelGraph(f1, base, chans, timebase, k)
    ensures VoltChannelGraph(f2, base, chans, timebase, k) == Ok(graphs1[k])
  {
    NormalModeReplaysTriggeredTrace(f1, |chans|, f2, k);
  }

  /** Within one untriggered NORMAL time view, the skip of a replayed channel
      is handed to the next channel even when that channel shows its own
      free-running trace. */
  lemma ReplayedSkipReachesNextChannel(f: VoltFrame, k: nat)
    requires k + 1 < |f.inputs| && Held(f, k)
    requires !Held(f, k + 1) && f.inputs[k + 1].Some?
    ensures VoltChannelChoice(f, k + 1).trace == f.inputs[k + 1].value
    ensures VoltChannelChoice(f, k + 1).skip == VoltEntryOf(f.cache, k).skip
  {
    SkipAfterHold(f, k, k + 1);
  }

  /** A triggered trace refused for its size is remembered all the same (the
      selector stores it before the builder checks the count). An
      untriggered NORMAL frame that follows replays it for that channel, so
      the channel is refused again, frame after frame, until a new trigger. */
  lemma RefusedTraceIsReplayed(f1: VoltFrame, base1: seq<ChannelGraph>, chans: seq<VoltageChannel>, timebase: real,
                               channel: nat, graphs1: seq<ChannelGraph>, skip1: u32, f2: VoltFrame, base2: seq<ChannelGraph>)
    requires VoltageOutcome(f1, base1, chans, timebase, Aborted(VoltageView, channel, SampleCountTooHigh), graphs1, f2.cache, skip1)
    requires f1.triggered
    requires !f2.triggered && f2.mode == Normal && |f2.inputs| == |chans| == |base2| && f2.inputs[channel].Some?
    ensures VoltChannelChoice(f2, channel).trace == VoltChannelChoice(f1, channel).trace
    ensures VoltChannelGraph(f2, base2, chans, timebase, channel) == Err(SampleCountTooHigh)
  {
    assert VoltEntryOf(f2.cache, channel) == VoltChannelChoice(f1, channel).entry;
  }

  // ---------------------------------------------------------------------
  // The XY view
  // ---------------------------------------------------------------------

  /** The voltage samples of every channel, as `useVoltSamplesOf` gives them. */
  function XYInputs(scope: ScopeSettings, result: PPresult): (r: seq<SampleValues>)
    ensures |r| == |scope.voltage|
    ensures forall k :: 0 <= k < |scope.voltage| ==> r[k] == UseVoltSamplesOf(scope, result, k)
  {
    seq(|scope.voltage|, k requires 0 <= k < |scope.voltage| => UseVoltSamplesOf(scope, result, k))
  }

  /** The graphs the XY builder leaves: channels are taken in pairs
      (x = 2j, y = 2j + 1); an unpaired last channel is cleared; a pair with
      an empty channel is cleared; otherwise the paired points are appended
      to the x slot and the y slot keeps what it had. */
  ghost predicate XYOutcome(base: seq<ChannelGraph>, xs: seq<SampleValues>, chans: seq<VoltageChannel>, graphs: seq<ChannelGraph>)
  {
    var n := |chans|;
    |base| == n && |xs| == n && |graphs| == n &&
    (forall k :: 0 <= k < n ==> chans[k].gain != 0.0) &&
    (n % 2 == 1 ==> graphs[n - 1] == []) &&
    forall k :: 0 <= k < n - 1 && k % 2 == 0 ==> XYPairDrawn(base, xs, chans, graphs, k)
  }

  /** The pair (k, k + 1) as the XY builder leaves it: cleared when either
      channel is empty, otherwise the paired points appended to the x slot
      and the y slot as it was. */
  ghost predicate XYPairDrawn(base: seq<ChannelGraph>, xs: seq<SampleValues>, chans: seq<VoltageChannel>, graphs: seq<ChannelGraph>, k: nat)
  {
    k + 1 < |chans| && k + 1 < |base| && k + 1 < |xs| && k + 1 < |graphs| &&
    chans[k].gain != 0.0 && chans[k + 1].gain != 0.0 &&
    if xs[k].sample == [] || xs[k + 1].sample == [] then graphs[k] == [] && graphs[k + 1] == []
    else graphs[k] == base[k] + XYPoints(xs[k].sample, xs[k + 1].sample, chans[k], chans[k + 1]) && graphs[k + 1] == base[k + 1]
  }

  /** The pairs below `channel` stay drawn when only slots from `channel`
      on change. */
  lemma XYPairsKept(base: seq<ChannelGraph>, xs: seq<SampleValues>, chans: seq<VoltageChannel>,
                    g1: seq<ChannelGraph>, g2: seq<ChannelGraph>, channel: nat)
    requires |g1| == |g2|
    requires forall k :: 0 <= k < channel && k < |g1| ==> g1[k] == g2[k]
    requires forall k :: 0 <= k < |chans| - 1 && k < channel && k % 2 == 0 ==> XYPairDrawn(base, xs, chans, g1, k)
    requires channel % 2 == 0
    ensures forall k :: 0 <= k < |chans| - 1 && k < channel && k % 2 == 0 ==> XYPairDrawn(base, xs, chans, g2, k)
  {
    forall k | 0 <= k < |chans| - 1 && k < channel && k % 2 == 0
      ensures XYPairDrawn(base, xs, chans, g2, k)
    {
      assert XYPairDrawn(base, xs, chans, g1, k);
      assert g1[k] == g2[k] && g1[k + 1] == g2[k + 1];
    }
  }

  /** In a completed XY view, a pair with data in both channels adds
      min(|x|, |y|) points after what the x slot held, point i pairing
      sample i of each channel. */
  lemma XYPairCount(base: seq<ChannelGraph>, xs: seq<SampleValues>, chans: seq<VoltageChannel>, graphs: seq<ChannelGraph>, k: nat)
    requires XYOutcome(base, xs, chans, graphs)
    requires k % 2 == 0 && k + 1 < |chans| && xs[k].sample != [] && xs[k + 1].sample != []
    ensures |graphs[k]| == |base[k]| + if |xs[k].sample| < |xs[k + 1].sample| then |xs[k].sample| else |xs[k + 1].sample|
    ensures graphs[k][..|base[k]|] == base[k]
    ensures forall i :: |base[k]| <= i < |graphs[k]| ==>
      graphs[k][i] == Point(VoltageY(xs[k].sample[i - |base[k]|], chans[k]), VoltageY(xs[k + 1].sample[i - |base[k]|], chans[k + 1]), 0.0)
  {
    assert XYPairDrawn(base, xs, chans, graphs, k);
    assert graphs[k] == base[k] + XYPoints(xs[k].sample, xs[k + 1].sample, chans[k], chans[k + 1]);
  }
}

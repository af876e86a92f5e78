/**
 * The graph generator: turns one post-processed frame into per-channel
 * point lists, keeping per channel the last triggered trace so that NORMAL
 * trigger mode can hold it while no new trigger arrives.
 *
 * The caches and the shared skip offset are fields of the generator; the
 * settings are passed to each call, as the generator reads them live.
 */
module Generator {

  import opened Scope
  import opened Frames
  import opened ChannelTransform
  import opened TraceCache
  import opened GraphSpec

  class GraphGenerator {
    const isSoftwareTriggerDevice: bool
    var ready: bool

    /** The skip offset shared by the voltage channel loop. */
    var skipSamples: u32

    /** Voltage trace cache: last triggered trace, its skip, validity. */
    var lastVoltSamples: seq<SampleValues>
    var lastVoltSkip: seq<u32>
    var voltValid: seq<bool>

    /** Spectrum trace cache: last triggered trace, validity. */
    var lastSpectrumSamples: seq<SampleValues>
    var spectrumValid: seq<bool>

    predicate Valid()
      reads this
    {
      VoltWellSized(VoltCacheView()) && SpecWellSized(SpecCacheView())
    }

    function VoltCacheView(): VoltCache
      reads this
    {
      VoltCache(lastVoltSamples, lastVoltSkip, voltValid)
    }

    function SpecCacheView(): SpecCache
      reads this
    {
      SpecCache(lastSpectrumSamples, spectrumValid)
    }

    constructor (isSoftwareTriggerDevice: bool)
      ensures Valid() && this.isSoftwareTriggerDevice == isSoftwareTriggerDevice
      ensures !ready && skipSamples == 0
      ensures VoltCacheView() == InitialVoltCache && SpecCacheView() == InitialSpecCache
    {
      this.isSoftwareTriggerDevice := isSoftwareTriggerDevice;
      ready := false;
      skipSamples := 0;
      lastVoltSamples := InitialVoltCache.samples;
      lastVoltSkip := InitialVoltCache.skips;
      voltValid := InitialVoltCache.valid;
      lastSpectrumSamples := InitialSpecCache.samples;
      spectrumValid := InitialSpecCache.valid;
    }

    /** Whether a time-view frame has been processed. */
    function IsReady(): (r: bool)
      reads this
      ensures r == ready
    {
      ready
    }

    /** The triggered voltage selector for one channel. It may replace the
        shared skip offset (when it replays a trace) and updates this
        channel's cache entry only. */
    method UseVoltSamplesTriggered(channel: nat, result: PPresult, scope: ScopeSettings) returns (samples: SampleValues)
      requires Valid() && channel < |scope.voltage|
      modifies this
      ensures Valid()
      ensures var c := ChooseVoltage(VoltEntryOf(old(VoltCacheView()), channel), old(skipSamples),
                                     VoltInput(scope, result, channel), result.softwareTriggerTriggered, scope.triggerMode);
        samples == c.trace && skipSamples == c.skip && VoltEntryOf(VoltCacheView(), channel) == c.entry
      ensures forall k: nat :: k != channel ==> VoltEntryOf(VoltCacheView(), k) == VoltEntryOf(old(VoltCacheView()), k)
      ensures |voltValid| >= old(|voltValid|)
      ensures SpecCacheView() == old(SpecCacheView()) && ready == old(ready)
    {
      if !scope.voltage[channel].used || result.DataOf(channel).None? {
        if channel < |voltValid| {
          voltValid := voltValid[channel := false];
        }
        return NoSamples;
      }
      var current := result.DataOf(channel).value.voltage;
      if result.softwareTriggerTriggered {
        if |voltValid| <= channel {
          var grown := GrowVoltCache(VoltCacheView(), channel + 1);
          lastVoltSamples, lastVoltSkip, voltValid := grown.samples, grown.skips, grown.valid;
        }
        lastVoltSamples := lastVoltSamples[channel := current];
        lastVoltSkip := lastVoltSkip[channel := skipSamples];
        voltValid := voltValid[channel := true];
        return current;
      }
      if scope.triggerMode == Normal && channel < |voltValid| && voltValid[channel] {
        skipSamples := lastVoltSkip[channel];
        return lastVoltSamples[channel];
      }
      if channel < |voltValid| {
        voltValid := voltValid[channel := false];
      }
      return current;
    }

    /** The triggered spectrum selector for one channel. */
    method UseSpectrumSamplesTriggered(channel: nat, result: PPresult, scope: ScopeSettings) returns (samples: SampleValues)
      requires Valid() && channel < |scope.spectrum|
      modifies this
      ensures Valid()
      ensures var c := ChooseSpectrum(SpecEntryOf(old(SpecCacheView()), channel),
                                      SpectrumInput(scope, result, channel), result.softwareTriggerTriggered, scope.triggerMode);
        samples == c.trace && SpecEntryOf(SpecCacheView(), channel) == c.entry
      ensures forall k: nat :: k != channel ==> SpecEntryOf(SpecCacheView(), k) == SpecEntryOf(old(SpecCacheView()), k)
      ensures |spectrumValid| >= old(|spectrumValid|)
      ensures VoltCacheView() == old(VoltCacheView()) && skipSamples == old(skipSamples) && ready == old(ready)
    {
      if !scope.spectrum[channel].used || result.DataOf(channel).None? {
        if channel < |spectrumValid| {
          spectrumValid := spectrumValid[channel := false];
        }
        return NoSamples;
      }
      var current := result.DataOf(channel).value.spectrum;
      if result.softwareTriggerTriggered {
        if |spectrumValid| <= channel {
          var grown := GrowSpecCache(SpecCacheView(), channel + 1);
          lastSpectrumSamples, spectrumValid := grown.samples, grown.valid;
        }
        lastSpectrumSamples := lastSpectrumSamples[channel := current];
        spectrumValid := spectrumValid[channel := true];
        return current;
      }
      if scope.triggerMode == Normal && channel < |spectrumValid| && spectrumValid[channel] {
        return lastSpectrumSamples[channel];
      }
      if channel < |spectrumValid| {
        spectrumValid := spectrumValid[channel := false];
      }
      return current;
    }

    /** The time-view voltage builder: works out the trigger flag and skip
        offset, then selects and draws each voltage channel in turn. */
    method GenerateGraphsTYvoltage(result: PPresult, scope: ScopeSettings, computed: TriggerPosition) returns (status: Status)
      requires Valid() && GainsNonZero(scope) && scope.timebase != 0.0
      modifies this, result
      ensures Valid()
      ensures result.softwareTriggerTriggered == TriggeredBy(TriggerOf(isSoftwareTriggerDevice, scope, result, computed))
      ensures status.Done? || status.view == VoltageView
      ensures VoltageFrameOutcome(old(VoltCacheView()), old(result.vaChannelVoltage), isSoftwareTriggerDevice, scope, result, computed,
                                  status, result.vaChannelVoltage, VoltCacheView(), skipSamples)
      ensures result.vaChannelSpectrum == old(result.vaChannelSpectrum)
      ensures SpecCacheView() == old(SpecCacheView()) && ready == old(ready)
    {
      BeginVoltageFrame(result, scope, computed);
      ghost var f := VoltFrameOf(old(VoltCacheView()), isSoftwareTriggerDevice, scope, result, computed);
      status := DrawVoltageChannels(result, scope, f, result.vaChannelVoltage);
    }

    /** The part of the voltage builder before its channel loop: sets the
        triggered flag and the skip offset and resizes the graph list to one
        slot per voltage channel. */
    method BeginVoltageFrame(result: PPresult, scope: ScopeSettings, computed: TriggerPosition)
      modifies this, result
      ensures var p := TriggerOf(isSoftwareTriggerDevice, scope, result, computed);
        skipSamples == SkipOf(p) && result.softwareTriggerTriggered == TriggeredBy(p)
      ensures result.vaChannelVoltage == Resize(old(result.vaChannelVoltage), |scope.voltage|)
      ensures result.vaChannelSpectrum == old(result.vaChannelSpectrum)
      ensures VoltCacheView() == old(VoltCacheView()) && SpecCacheView() == old(SpecCacheView()) && ready == old(ready)
    {
      var position := TriggerOf(isSoftwareTriggerDevice, scope, result, computed);
      skipSamples := SkipOf(position);
      result.softwareTriggerTriggered := TriggeredBy(position);
      result.vaChannelVoltage := Resize(result.vaChannelVoltage, |scope.voltage|);
    }

    /** The voltage channel loop: draws channel after channel until one is
        refused or all are drawn. */
    method DrawVoltageChannels(result: PPresult, scope: ScopeSettings, ghost f: VoltFrame, ghost base: seq<ChannelGraph>)
      returns (status: Status)
      requires Valid()
      requires f.inputs == VoltInputs(scope, result) && f.triggered == result.softwareTriggerTriggered && f.mode == scope.triggerMode
      requires GainsNonZero(scope) && scope.timebase != 0.0
      requires f.cache == VoltCacheView() && f.skip == skipSamples && result.vaChannelVoltage == base && |base| == |scope.voltage|
      modifies this, result
      ensures Valid()
      ensures result.softwareTriggerTriggered == old(result.softwareTriggerTriggered)
      ensures status.Done? || status.view == VoltageView
      ensures VoltageOutcome(f, base, scope.voltage, scope.timebase, status, result.vaChannelVoltage, VoltCacheView(), skipSamples)
      ensures result.vaChannelSpectrum == old(result.vaChannelSpectrum)
      ensures SpecCacheView() == old(SpecCacheView()) && ready == old(ready)
    {
      var n := |scope.voltage|;
      VoltagePrefixStart(f, base, scope.voltage, scope.timebase);
      var channel := 0;
      while channel < n
        invariant Valid() && 0 <= channel <= n
        invariant result.softwareTriggerTriggered == f.triggered
        invariant VoltagePrefix(f, base, scope.voltage, scope.timebase, channel, result.vaChannelVoltage, VoltCacheView(), skipSamples)
        invariant result.vaChannelSpectrum == old(result.vaChannelSpectrum)
        invariant SpecCacheView() == old(SpecCacheView()) && ready == old(ready)
        invariant result.softwareTriggerTriggered == old(result.softwareTriggerTriggered)
      {
        status := DrawVoltageChannel(result, scope, channel, f, base);
        if status.Aborted? {
          return;
        }
        channel := channel + 1;
      }
      status := Done;
      VoltagePrefixDone(f, base, scope.voltage, scope.timebase, result.vaChannelVoltage, VoltCacheView(), skipSamples);
    }

    /** One pass of the voltage channel loop: selects the channel's trace,
        clears the slot for an empty trace, refuses an oversized trace or a
        skip beyond it, and otherwise appends the trace's points. */
    method DrawVoltageChannel(result: PPresult, scope: ScopeSettings, channel: nat, ghost f: VoltFrame, ghost base: seq<ChannelGraph>)
      returns (status: Status)
      requires Valid() && channel < |scope.voltage|
      requires f.inputs == VoltInputs(scope, result) && f.triggered == result.softwareTriggerTriggered && f.mode == scope.triggerMode
      requires VoltagePrefix(f, base, scope.voltage, scope.timebase, channel, result.vaChannelVoltage, VoltCacheView(), skipSamples)
      modifies this, result
      ensures Valid()
      ensures status.Done? ==>
        VoltagePrefix(f, base, scope.voltage, scope.timebase, channel + 1, result.vaChannelVoltage, VoltCacheView(), skipSamples)
      ensures status.Aborted? ==>
        status.view == VoltageView && status.channel == channel &&
        VoltageOutcome(f, base, scope.voltage, scope.timebase, status, result.vaChannelVoltage, VoltCacheView(), skipSamples)
      ensures result.softwareTriggerTriggered == old(result.softwareTriggerTriggered)
      ensures result.vaChannelSpectrum == old(result.vaChannelSpectrum)
      ensures SpecCacheView() == old(SpecCacheView()) && ready == old(ready)
    {
      var n := |scope.voltage|;
      ghost var before := VoltCacheView();
      assert f.inputs[channel] == VoltInput(scope, result, channel);
      var samples := UseVoltSamplesTriggered(channel, result, scope);
      VoltCacheAfterStep(f, channel, before, VoltCacheView());
      assert samples == VoltChannelChoice(f, channel).trace && skipSamples == SkipEntering(f, channel + 1);
      if |samples.sample| == 0 {
        result.vaChannelVoltage := result.vaChannelVoltage[channel := []];
        return Done;
      }
      var sampleCount := |samples.sample|;
      if sampleCount > MaxSampleCount {
        status := Aborted(VoltageView, channel, SampleCountTooHigh);
        VoltageAbortedAt(f, base, scope.voltage, scope.timebase, channel, SampleCountTooHigh, result.vaChannelVoltage, VoltCacheView(), skipSamples);
        return;
      }
      if skipSamples > sampleCount {
        status := Aborted(VoltageView, channel, SkipBeyondSamples);
        VoltageAbortedAt(f, base, scope.voltage, scope.timebase, channel, SkipBeyondSamples, result.vaChannelVoltage, VoltCacheView(), skipSamples);
        return;
      }
      var target := AppendVoltagePoints(result.vaChannelVoltage[channel], samples, skipSamples, scope.timebase, scope.voltage[channel]);
      result.vaChannelVoltage := result.vaChannelVoltage[channel := target];
      return Done;
    }

    /** The spectrum builder: selects and draws each channel's spectrum.
        The graph list is sized by the spectrum settings, the loop by the
        voltage settings. */
    method GenerateGraphsTYspectrum(result: PPresult, scope: ScopeSettings) returns (status: Status)
      requires Valid() && |scope.voltage| <= |scope.spectrum|
      requires MagnitudesNonZero(scope) && scope.frequencybase != 0.0
      modifies this, result
      ensures Valid() && ready
      ensures status.Done? || status.view == SpectrumView
      ensures SpectrumOutcome(SpecFrame(old(SpecCacheView()), SpectrumInputs(scope, result), result.softwareTriggerTriggered, scope.triggerMode),
                              Resize(old(result.vaChannelSpectrum), |scope.spectrum|), scope.spectrum, scope.frequencybase,
                              status, result.vaChannelSpectrum, SpecCacheView())
      ensures result.vaChannelVoltage == old(result.vaChannelVoltage)
      ensures result.softwareTriggerTriggered == old(result.softwareTriggerTriggered)
      ensures VoltCacheView() == old(VoltCacheView()) && skipSamples == old(skipSamples)
    {
      ready := true;
      var n := |scope.voltage|;
      result.vaChannelSpectrum := Resize(result.vaChannelSpectrum, |scope.spectrum|);
      ghost var f := SpecFrame(SpecCacheView(), SpectrumInputs(scope, result), result.softwareTriggerTriggered, scope.triggerMode);
      ghost var base := result.vaChannelSpectrum;
      SpectrumPrefixStart(f, base, scope.spectrum, scope.frequencybase);
      var channel := 0;
      while channel < n
        invariant Valid() && ready && 0 <= channel <= n
        invariant SpectrumPrefix(f, base, scope.spectrum, scope.frequencybase, channel, result.vaChannelSpectrum, SpecCacheView())
        invariant result.vaChannelVoltage == old(result.vaChannelVoltage)
        invariant result.softwareTriggerTriggered == old(result.softwareTriggerTriggered)
        invariant VoltCacheView() == old(VoltCacheView()) && skipSamples == old(skipSamples)
      {
        status := DrawSpectrumChannel(result, scope, channel, f, base);
        if status.Aborted? {
          return;
        }
        channel := channel + 1;
      }
      SpectrumPrefixDone(f, base, scope.spectrum, scope.frequencybase, result.vaChannelSpectrum, SpecCacheView());
      return Done;
    }

    /** One pass of the spectrum channel loop: selects the channel's
        spectrum, clears the slot for an empty one, refuses an oversized one,
        and otherwise appends its points. */
    method DrawSpectrumChannel(result: PPresult, scope: ScopeSettings, channel: nat, ghost f: SpecFrame, ghost base: seq<ChannelGraph>)
      returns (status: Status)
      requires Valid() && channel < |scope.voltage| <= |scope.spectrum|
      requires f.inputs == SpectrumInputs(scope, result) && f.triggered == result.softwareTriggerTriggered && f.mode == scope.triggerMode
      requires SpectrumPrefix(f, base, scope.spectrum, scope.frequencybase, channel, result.vaChannelSpectrum, SpecCacheView())
      modifies this, result
      ensures Valid()
      ensures status.Done? ==>
        SpectrumPrefix(f, base, scope.spectrum, scope.frequencybase, channel + 1, result.vaChannelSpectrum, SpecCacheView())
      ensures status.Aborted? ==>
        status.view == SpectrumView && status.channel == channel &&
        SpectrumOutcome(f, base, scope.spectrum, scope.frequencybase, status, result.vaChannelSpectrum, SpecCacheView())
      ensures result.vaChannelVoltage == old(result.vaChannelVoltage)
      ensures result.softwareTriggerTriggered == old(result.softwareTriggerTriggered)
      ensures VoltCacheView() == old(VoltCacheView()) && skipSamples == old(skipSamples) && ready == old(ready)
    {
      ghost var before := SpecCacheView();
      assert f.inputs[channel] == SpectrumInput(scope, result, channel);
      var samples := UseSpectrumSamplesTriggered(channel, result, scope);
      SpecCacheAfterStep(f, channel, before, SpecCacheView());
      assert samples == SpecChannelChoice(f, channel).trace;
      if |samples.sample| == 0 {
        result.vaChannelSpectrum := result.vaChannelSpectrum[channel := []];
        return Done;
      }
      var sampleCount := |samples.sample|;
      if sampleCount > MaxSampleCount {
        status := Aborted(SpectrumView, channel, SampleCountTooHigh);
        SpectrumAbortedAt(f, base, scope.spectrum, scope.frequencybase, channel, SampleCountTooHigh, result.vaChannelSpectrum, before, SpecCacheView());
        return;
      }
      var target := AppendSpectrumPoints(result.vaChannelSpectrum[channel], samples, scope.frequencybase, scope.spectrum[channel]);
      result.vaChannelSpectrum := result.vaChannelSpectrum[channel := target];
      return Done;
    }

    /** The XY builder: pairs channel 2j (x) with channel 2j + 1 (y) and
        clears every spectrum graph. It reads and changes no cache. */
    method GenerateGraphsXY(result: PPresult, scope: ScopeSettings)
      requires GainsNonZero(scope)
      modifies result
      ensures XYOutcome(Resize(old(result.vaChannelVoltage), |scope.voltage|), XYInputs(scope, result), scope.voltage, result.vaChannelVoltage)
      ensures |result.vaChannelSpectrum| == old(|result.vaChannelSpectrum|)
      ensures forall k :: 0 <= k < |result.vaChannelSpectrum| ==> result.vaChannelSpectrum[k] == []
      ensures result.softwareTriggerTriggered == old(result.softwareTriggerTriggered)
    {
      var n := |scope.voltage|;
      result.vaChannelVoltage := Resize(result.vaChannelVoltage, n);
      result.vaChannelSpectrum := seq(|result.vaChannelSpectrum|, _ => []);
      ghost var base := result.vaChannelVoltage;
      ghost var xs := XYInputs(scope, result);
      var channel := 0;
      while channel < n
        invariant channel % 2 == 0 && 0 <= channel
        invariant |result.vaChannelVoltage| == n
        invariant channel > n ==> channel == n + 1 && n % 2 == 1 && n >= 1 && result.vaChannelVoltage[n - 1] == []
        invariant forall k :: channel <= k < n ==> result.vaChannelVoltage[k] == base[k]
        invariant forall k :: 0 <= k < n - 1 && k < channel && k % 2 == 0 ==>
          XYPairDrawn(base, xs, scope.voltage, result.vaChannelVoltage, k)
        invariant |result.vaChannelSpectrum| == old(|result.vaChannelSpectrum|)
        invariant forall k :: 0 <= k < |result.vaChannelSpectrum| ==> result.vaChannelSpectrum[k] == []
        invariant result.softwareTriggerTriggered == old(result.softwareTriggerTriggered)
      {
        ghost var before := result.vaChannelVoltage;
        if channel + 1 == n {
          result.vaChannelVoltage := result.vaChannelVoltage[channel := []];
          XYPairsKept(base, xs, scope.voltage, before, result.vaChannelVoltage, channel);
          channel := channel + 2;
          continue;
        }
        var xChannel := channel;
        var yChannel := channel + 1;
        var xSamples := UseVoltSamplesOf(scope, result, xChannel);
        var ySamples := UseVoltSamplesOf(scope, result, yChannel);
        if |xSamples.sample| == 0 || |ySamples.sample| == 0 {
          result.vaChannelVoltage := result.vaChannelVoltage[xChannel := []][yChannel := []];
        } else {
          var drawLines := AppendXYPoints(result.vaChannelVoltage[xChannel], xSamples.sample, ySamples.sample,
                                          scope.voltage[xChannel], scope.voltage[yChannel]);
          result.vaChannelVoltage := result.vaChannelVoltage[xChannel := drawLines];
        }
        assert XYPairDrawn(base, xs, scope.voltage, result.vaChannelVoltage, channel);
        XYPairsKept(base, xs, scope.voltage, before, result.vaChannelVoltage, channel);
        channel := channel + 2;
      }
    }

    /** Processes one frame: the time view (voltage, then spectrum) in TY
        format, the XY view otherwise. `ready` is set by the time view only.
        An aborted voltage stage leaves the spectrum graphs untouched. */
    method Process(result: PPresult, scope: ScopeSettings, computed: TriggerPosition) returns (status: Status)
      requires Valid() && GainsNonZero(scope)
      requires scope.format == TY ==>
        |scope.voltage| <= |scope.spectrum| && MagnitudesNonZero(scope) && scope.timebase != 0.0 && scope.frequencybase != 0.0
      modifies this, result
      ensures Valid()
      ensures scope.format == TY ==> ready
      ensures scope.format == TY ==>
        var vf := VoltFrameOf(old(VoltCacheView()), isSoftwareTriggerDevice, scope, result, computed);
        var sf := SpecFrame(old(SpecCacheView()), SpectrumInputs(scope, result), vf.triggered, scope.triggerMode);
        result.softwareTriggerTriggered == vf.triggered &&
        if status.Aborted? && status.view == VoltageView then
          VoltageOutcome(vf, Resize(old(result.vaChannelVoltage), |scope.voltage|), scope.voltage, scope.timebase,
                         status, result.vaChannelVoltage, VoltCacheView(), skipSamples) &&
          result.vaChannelSpectrum == old(result.vaChannelSpectrum) && SpecCacheView() == old(SpecCacheView())
        else
          VoltageOutcome(vf, Resize(old(result.vaChannelVoltage), |scope.voltage|), scope.voltage, scope.timebase,
                         Done, result.vaChannelVoltage, VoltCacheView(), skipSamples) &&
          SpectrumOutcome(sf, Resize(old(result.vaChannelSpectrum), |scope.spectrum|), scope.spectrum, scope.frequencybase,
                          status, result.vaChannelSpectrum, SpecCacheView())
      ensures scope.format == XY ==>
        status == Done && ready == old(ready) &&
        XYOutcome(Resize(old(result.vaChannelVoltage), |scope.voltage|), XYInputs(scope, result), scope.voltage, result.vaChannelVoltage) &&
        |result.vaChannelSpectrum| == old(|result.vaChannelSpectrum|) &&
        (forall k :: 0 <= k < |result.vaChannelSpectrum| ==> result.vaChannelSpectrum[k] == []) &&
        result.softwareTriggerTriggered == old(result.softwareTriggerTriggered) &&
        VoltCacheView() == old(VoltCacheView()) && SpecCacheView() == old(SpecCacheView()) && skipSamples == old(skipSamples)
    {
      if scope.format == TY {
        ready := true;
        status := GenerateGraphsTYvoltage(result, scope, computed);
        if status.Aborted? {
          return;
        }
        status := GenerateGraphsTYspectrum(result, scope);
      } else {
        GenerateGraphsXY(result, scope);
        status := Done;
      }
    }
  }
}

/**
 * The per-channel "last good trigger" caches of the graph generator and the
 * decision each selector takes for one channel and one frame: show nothing,
 * show and remember the new triggered trace, replay the remembered trace
 * (NORMAL mode only), or drop the remembered trace and show the
 * free-running one.
 *
 * A cache is three (voltage) or two (spectrum) parallel sequences indexed
 * by channel. `VoltEntryOf` and `SpecEntryOf` read one channel's entry; a
 * channel beyond the stored length reads as the default, invalid entry,
 * which is also what a freshly grown slot holds.
 */
module TraceCache {

  import opened Scope
  import opened Frames

  // ---------------------------------------------------------------------
  // Voltage cache
  // ---------------------------------------------------------------------

  /** One channel's voltage cache entry: the trace, the skip offset that
      came with it, and whether it may be replayed. */
  datatype VoltEntry = VoltEntry(samples: SampleValues, skip: u32, valid: bool)

  const EmptyVoltEntry := VoltEntry(NoSamples, 0, false)

  datatype VoltCache = VoltCache(samples: seq<SampleValues>, skips: seq<u32>, valid: seq<bool>)

  predicate VoltWellSized(c: VoltCache)
  {
    |c.samples| == |c.skips| == |c.valid|
  }

  function VoltEntryOf(c: VoltCache, k: nat): VoltEntry
  {
    if k < |c.samples| && k < |c.skips| && k < |c.valid| then VoltEntry(c.samples[k], c.skips[k], c.valid[k])
    else EmptyVoltEntry
  }

  /** The voltage cache as the selector starts: three default slots. */
  const InitialVoltCache := VoltCache(seq(3, _ => NoSamples), seq(3, _ => 0), seq(3, _ => false))

  /** Makes room for channels below `n` in all three sequences at once.
      No entry changes, and a grown cache can store channel `n - 1`. */
  function GrowVoltCache(c: VoltCache, n: nat): (r: VoltCache)
    requires VoltWellSized(c)
    ensures VoltWellSized(r)
    ensures |r.valid| == if n <= |c.valid| then |c.valid| else n
    ensures forall k :: VoltEntryOf(r, k) == VoltEntryOf(c, k)
  {
    if n <= |c.valid| then c
    else
      var extra := n - |c.valid|;
      VoltCache(c.samples + seq(extra, _ => NoSamples), c.skips + seq(extra, _ => 0), c.valid + seq(extra, _ => false))
  }

  /** What the voltage selector returns for one channel, together with the
      skip offset it leaves behind and the channel's new cache entry. */
  datatype VoltChoice = VoltChoice(trace: SampleValues, skip: u32, entry: VoltEntry)

  /** The voltage selector's decision for one channel. `input` is None when
      the channel is unused or the frame has no data for it; `skip` is the
      skip offset passed in. */
  function ChooseVoltage(e: VoltEntry, skip: u32, input: Option<SampleValues>, triggered: bool, mode: TriggerMode): (r: VoltChoice)
    ensures input.None? ==> r.trace == NoSamples && r.skip == skip && !r.entry.valid
    ensures r.entry.valid <==> input.Some? && (triggered || (mode == Normal && e.valid))
    ensures input.Some? && (r.trace != input.value || r.skip != skip) ==>
      !triggered && mode == Normal && e.valid && r.trace == e.samples && r.skip == e.skip && r.entry == e
    ensures input.Some? && triggered ==> r == VoltChoice(input.value, skip, VoltEntry(input.value, skip, true))
    ensures input.Some? && !triggered && mode == Normal && e.valid ==> r == VoltChoice(e.samples, e.skip, e)
  {
    match input
    case None => VoltChoice(NoSamples, skip, e.(valid := false))
    case Some(current) =>
      if triggered then VoltChoice(current, skip, VoltEntry(current, skip, true))
      else if mode == Normal && e.valid then VoltChoice(e.samples, e.skip, e)
      else VoltChoice(current, skip, e.(valid := false))
  }

  // ---------------------------------------------------------------------
  // Spectrum cache
  // ---------------------------------------------------------------------

  /** One channel's spectrum cache entry (no skip offset). */
  datatype SpecEntry = SpecEntry(samples: SampleValues, valid: bool)

  const EmptySpecEntry := SpecEntry(NoSamples, false)

  datatype SpecCache = SpecCache(samples: seq<SampleValues>, valid: seq<bool>)

  predicate SpecWellSized(c: SpecCache)
  {
    |c.samples| == |c.valid|
  }

  function SpecEntryOf(c: SpecCache, k: nat): SpecEntry
  {
    if k < |c.samples| && k < |c.valid| then SpecEntry(c.samples[k], c.valid[k]) else EmptySpecEntry
  }

  const InitialSpecCache := SpecCache(seq(3, _ => NoSamples), seq(3, _ => false))

  function GrowSpecCache(c: SpecCache, n: nat): (r: SpecCache)
    requires SpecWellSized(c)
    ensures SpecWellSized(r)
    ensures |r.valid| == if n <= |c.valid| then |c.valid| else n
    ensures forall k :: SpecEntryOf(r, k) == SpecEntryOf(c, k)
  {
    if n <= |c.valid| then c
    else
      var extra := n - |c.valid|;
      SpecCache(c.samples + seq(extra, _ => NoSamples), c.valid + seq(extra, _ => false))
  }

  datatype SpecChoice = SpecChoice(trace: SampleValues, entry: SpecEntry)

  /** The spectrum selector's decision for one channel. */
  function ChooseSpectrum(e: SpecEntry, input: Option<SampleValues>, triggered: bool, mode: TriggerMode): (r: SpecChoice)
    ensures input.None? ==> r.trace == NoSamples && !r.entry.valid
    ensures r.entry.valid <==> input.Some? && (triggered || (mode == Normal && e.valid))
    ensures input.Some? && r.trace != input.value ==> !triggered && mode == Normal && e.valid && r.trace == e.samples && r.entry == e
    ensures input.Some? && triggered ==> r == SpecChoice(input.value, SpecEntry(input.value, true))
    ensures input.Some? && !triggered && mode == Normal && e.valid ==> r == SpecChoice(e.samples, e)
  {
    match input
    case None => SpecChoice(NoSamples, e.(valid := false))
    case Some(current) =>
      if triggered then SpecChoice(current, SpecEntry(current, true))
      else if mode == Normal && e.valid then SpecChoice(e.samples, e)
      else SpecChoice(current, e.(valid := false))
  }

  // ---------------------------------------------------------------------
  // A whole frame: the channel loop of the time-view voltage builder
  // ---------------------------------------------------------------------

  /** What the voltage channel loop starts from: the cache, the skip offset
      computed for the frame, each channel's input, the triggered flag and
      the trigger mode. */
  datatype VoltFrame = VoltFrame(cache: VoltCache, skip: u32, inputs: seq<Option<SampleValues>>, triggered: bool, mode: TriggerMode)

  /** The skip offset shared by the channel loop, as it stands when channel
      `k` is selected: every channel may overwrite it (a replayed trace
      brings its own skip) and the next channel sees the result. */
  function SkipEntering(f: VoltFrame, k: nat): u32
    requires k <= |f.inputs|
  {
    if k == 0 then f.skip
    else ChooseVoltage(VoltEntryOf(f.cache, k - 1), SkipEntering(f, k - 1), f.inputs[k - 1], f.triggered, f.mode).skip
  }

  /** The selector's decision for channel `k` within the frame. Each channel
      reads only its own entry, so the entry it sees is the one the frame
      started with. */
  function VoltChannelChoice(f: VoltFrame, k: nat): VoltChoice
    requires k < |f.inputs|
  {
    ChooseVoltage(VoltEntryOf(f.cache, k), SkipEntering(f, k), f.inputs[k], f.triggered, f.mode)
  }

  /** Channel `k` replays its remembered trace in this frame. */
  predicate Held(f: VoltFrame, k: nat)
    requires k < |f.inputs|
  {
    !f.triggered && f.mode == Normal && f.inputs[k].Some? && VoltEntryOf(f.cache, k).valid
  }

  /** `after` is the cache left once channels below `n` have been selected:
      those channels hold their new entries, the others are untouched. */
  ghost predicate VoltCacheAfter(f: VoltFrame, n: nat, after: VoltCache)
  {
    VoltWellSized(after) &&
    (forall k: nat {:trigger VoltEntryOf(after, k), VoltChannelChoice(f, k)} ::
       k < n && k < |f.inputs| ==> VoltEntryOf(after, k) == VoltChannelChoice(f, k).entry) &&
    (forall k: nat :: n <= k || |f.inputs| <= k ==> VoltEntryOf(after, k) == VoltEntryOf(f.cache, k))
  }

  /** Selecting channel `k` extends the selected prefix by one channel. */
  lemma VoltCacheAfterStep(f: VoltFrame, k: nat, before: VoltCache, after: VoltCache)
    requires k < |f.inputs| && VoltCacheAfter(f, k, before) && VoltWellSized(after)
    requires VoltEntryOf(after, k) == ChooseVoltage(VoltEntryOf(before, k), SkipEntering(f, k), f.inputs[k], f.triggered, f.mode).entry
    requires forall j: nat :: j != k ==> VoltEntryOf(after, j) == VoltEntryOf(before, j)
    ensures VoltEntryOf(before, k) == VoltEntryOf(f.cache, k)
    ensures VoltCacheAfter(f, k + 1, after)
  {
    assert VoltEntryOf(before, k) == VoltEntryOf(f.cache, k);
  }

  /** While no channel has replayed a trace, the shared skip offset is the
      one computed for the frame. */
  lemma {:induction false} SkipWithoutHold(f: VoltFrame, k: nat)
    requires k <= |f.inputs|
    requires forall j :: 0 <= j < k ==> !Held(f, j)
    ensures SkipEntering(f, k) == f.skip
  {
    if k > 0 {
      SkipWithoutHold(f, k - 1);
      assert !Held(f, k - 1);
    }
  }

  /** The skip offset leaks from a replayed channel to the channels after
      it: once channel `j` replays its trace, every later channel up to the
      next replay is handed `j`'s remembered skip, even one that shows its
      own free-running trace. */
  lemma {:induction false} SkipAfterHold(f: VoltFrame, j: nat, k: nat)
    requires j < k <= |f.inputs|
    requires Held(f, j)
    requires forall i :: j < i < k ==> !Held(f, i)
    ensures SkipEntering(f, k) == VoltEntryOf(f.cache, j).skip
  {
    if k > j + 1 {
      SkipAfterHold(f, j, k - 1);
      assert !Held(f, k - 1);
    }
  }

  /** On a triggered frame every channel is handed the frame's own skip:
      a channel with data shows and remembers the new trace with that skip,
      and a channel without data shows nothing and is invalidated. */
  lemma TriggeredFrameChoice(f: VoltFrame, k: nat)
    requires k < |f.inputs| && f.triggered
    ensures f.inputs[k].Some? ==>
      VoltChannelChoice(f, k) == VoltChoice(f.inputs[k].value, f.skip, VoltEntry(f.inputs[k].value, f.skip, true))
    ensures f.inputs[k].None? ==>
      VoltChannelChoice(f, k).trace == NoSamples && !VoltChannelChoice(f, k).entry.valid
  {
    SkipWithoutHold(f, k);
  }

  /** A triggered frame followed by an untriggered NORMAL frame: the second
      frame shows the first frame's trace with the first frame's skip, and
      keeps the entry as it was. */
  lemma NormalModeReplaysTriggeredTrace(f1: VoltFrame, n: nat, f2: VoltFrame, k: nat)
    requires f1.triggered && k < n <= |f1.inputs| && f1.inputs[k].Some?
    requires VoltCacheAfter(f1, n, f2.cache)
    requires !f2.triggered && f2.mode == Normal && k < |f2.inputs| && f2.inputs[k].Some?
    ensures VoltChannelChoice(f2, k).trace == f1.inputs[k].value
    ensures VoltChannelChoice(f2, k).skip == f1.skip
    ensures VoltChannelChoice(f2, k).trace == VoltChannelChoice(f1, k).trace
    ensures VoltChannelChoice(f2, k).skip == VoltChannelChoice(f1, k).skip
    ensures VoltChannelChoice(f2, k).entry == VoltEntryOf(f2.cache, k)
  {
    TriggeredFrameChoice(f1, k);
  }

  /** An untriggered frame outside NORMAL mode shows the channel's own
      free-running trace and invalidates its entry, so a later untriggered
      NORMAL frame shows its own data, not the trace remembered before. */
  lemma DiscardedTraceIsNotReplayed(f2: VoltFrame, n: nat, f3: VoltFrame, k: nat)
    requires !f2.triggered && f2.mode != Normal && k < n <= |f2.inputs| && f2.inputs[k].Some?
    requires VoltCacheAfter(f2, n, f3.cache)
    requires !f3.triggered && k < |f3.inputs| && f3.inputs[k].Some?
    ensures VoltChannelChoice(f2, k).trace == f2.inputs[k].value
    ensures VoltChannelChoice(f3, k).trace == f3.inputs[k].value
    ensures !VoltChannelChoice(f3, k).entry.valid
  {
  }

  /** A channel that is unused or has no data shows nothing and is
      invalidated, whatever the trigger state; the shared skip passes
      through unchanged. */
  lemma UnusedChannelChoice(f: VoltFrame, k: nat)
    requires k < |f.inputs| && f.inputs[k].None?
    ensures VoltChannelChoice(f, k).trace.sample == []
    ensures !VoltChannelChoice(f, k).entry.valid
    ensures SkipEntering(f, k + 1) == SkipEntering(f, k)
  {
  }

  // ---------------------------------------------------------------------
  // A whole frame: the channel loop of the spectrum builder
  // ---------------------------------------------------------------------

  datatype SpecFrame = SpecFrame(cache: SpecCache, inputs: seq<Option<SampleValues>>, triggered: bool, mode: TriggerMode)

  function SpecChannelChoice(f: SpecFrame, k: nat): SpecChoice
    requires k < |f.inputs|
  {
    ChooseSpectrum(SpecEntryOf(f.cache, k), f.inputs[k], f.triggered, f.mode)
  }

  ghost predicate SpecCacheAfter(f: SpecFrame, n: nat, after: SpecCache)
  {
    SpecWellSized(after) &&
    forall k: nat :: SpecEntryOf(after, k) == if k < n && k < |f.inputs| then SpecChannelChoice(f, k).entry else SpecEntryOf(f.cache, k)
  }

  lemma SpecCacheAfterStep(f: SpecFrame, k: nat, before: SpecCache, after: SpecCache)
    requires k < |f.inputs| && SpecCacheAfter(f, k, before) && SpecWellSized(after)
    requires SpecEntryOf(after, k) == ChooseSpectrum(SpecEntryOf(before, k), f.inputs[k], f.triggered, f.mode).entry
    requires forall j: nat :: j != k ==> SpecEntryOf(after, j) == SpecEntryOf(before, j)
    ensures SpecEntryOf(before, k) == SpecEntryOf(f.cache, k)
    ensures SpecCacheAfter(f, k + 1, after)
  {
    assert SpecEntryOf(before, k) == SpecEntryOf(f.cache, k);
  }

  /** The spectrum counterpart of NormalModeReplaysTriggeredTrace. */
  lemma NormalModeReplaysTriggeredSpectrum(f1: SpecFrame, n: nat, f2: SpecFrame, k: nat)
    requires f1.triggered && k < n <= |f1.inputs| && f1.inputs[k].Some?
    requires SpecCacheAfter(f1, n, f2.cache)
    requires !f2.triggered && f2.mode == Normal && k < |f2.inputs| && f2.inputs[k].Some?
    ensures SpecChannelChoice(f2, k).trace == f1.inputs[k].value
    ensures SpecChannelChoice(f2, k).entry == SpecEntryOf(f2.cache, k)
  {
  }

  /** A spectrum channel that is unused or has no data shows nothing and is
      invalidated, whatever the trigger state. */
  lemma UnusedSpectrumChoice(f: SpecFrame, k: nat)
    requires k < |f.inputs| && f.inputs[k].None?
    ensures SpecChannelChoice(f, k).trace.sample == []
    ensures !SpecChannelChoice(f, k).entry.valid
  {
  }

  /** A triggered frame shows and remembers the new spectrum. */
  lemma TriggeredSpectrumChoice(f: SpecFrame, k: nat)
    requires k < |f.inputs| && f.triggered && f.inputs[k].Some?
    ensures SpecChannelChoice(f, k) == SpecChoice(f.inputs[k].value, SpecEntry(f.inputs[k].value, true))
  {
  }

  /** An untriggered frame outside NORMAL mode shows its own spectrum and
      drops the remembered one, so a later untriggered frame shows its own
      data as well. */
  lemma DiscardedSpectrumIsNotReplayed(f2: SpecFrame, n: nat, f3: SpecFrame, k: nat)
    requires !f2.triggered && f2.mode != Normal && k < n <= |f2.inputs| && f2.inputs[k].Some?
    requires SpecCacheAfter(f2, n, f3.cache)
    requires !f3.triggered && k < |f3.inputs| && f3.inputs[k].Some?
    ensures SpecChannelChoice(f2, k).trace == f2.inputs[k].value
    ensures SpecChannelChoice(f3, k).trace == f3.inputs[k].value
    ensures !SpecChannelChoice(f3, k).entry.valid
  {
  }

  // ---------------------------------------------------------------------
  // The cache sizes as the source declares them
  // ---------------------------------------------------------------------

  /** Lengths of a selector's vectors: the sample vector, which the
      triggered branch resizes on demand, and the fixed vectors, which it
      never resizes (the skip and flag vectors of the voltage selector, the
      flag vector of the spectrum selector). */
  datatype CacheLengths = CacheLengths(samples: nat, fixed: nat)

  /** Both selectors declare every vector with three elements. */
  const DeclaredLengths := CacheLengths(3, 3)

  /** The resize the triggered branch performs as written: only the sample
      vector grows. */
  function ResizeAsWritten(l: CacheLengths, channel: nat): (r: CacheLengths)
    ensures r.fixed == l.fixed
    ensures channel < r.samples && l.samples <= r.samples
  {
    if l.samples <= channel then l.(samples := channel + 1) else l
  }

  /** The lengths after the triggered stores of `stored`, in order, as
      written: the sample vector has room for every stored channel, the
      fixed vectors keep their length. */
  function LengthsAfterAsWritten(l: CacheLengths, stored: seq<nat>): (r: CacheLengths)
    ensures r.fixed == l.fixed && l.samples <= r.samples
    ensures forall i :: 0 <= i < |stored| ==> stored[i] < r.samples
    decreases |stored|
  {
    if stored == [] then l
    else
      var r := LengthsAfterAsWritten(ResizeAsWritten(l, stored[0]), stored[1..]);
      assert forall i :: 1 <= i < |stored| ==> stored[i] == stored[1..][i - 1];
      r
  }

  /** Storing channel `channel` touches every vector at that index. */
  predicate CanStore(l: CacheLengths, channel: nat)
  {
    channel < l.samples && channel < l.fixed
  }

  /** As written, a fourth channel (index 3) that triggers indexes the fixed
      vectors out of range even after the resize. */
  lemma StoreAsWrittenOutOfRange()
    ensures !CanStore(ResizeAsWritten(DeclaredLengths, 3), 3)
  {
  }

  /** As written, whatever frames came before, the fixed vectors still have
      three elements. Every path through either selector reads or writes the
      flag vector at the channel's index (the unused, triggered, replay and
      free-running branches alike), so any frame that reaches channel 3
      indexes it out of range. */
  lemma FlagsAsWrittenOutOfRange(stored: seq<nat>, channel: nat)
    requires 3 <= channel
    ensures LengthsAfterAsWritten(DeclaredLengths, stored).fixed == 3
    ensures !CanStore(LengthsAfterAsWritten(DeclaredLengths, stored), channel)
  {
  }

  /** Growing all three voltage vectors together (GrowVoltCache) makes every
      channel storable. */
  lemma GrownCacheCanStore(c: VoltCache, channel: nat)
    requires VoltWellSized(c)
    ensures var g := GrowVoltCache(c, channel + 1);
      |g.skips| == |g.valid| && CanStore(CacheLengths(|g.samples|, |g.valid|), channel)
  {
  }

  /** Growing both spectrum vectors together (GrowSpecCache) makes every
      channel storable. */
  lemma GrownSpecCacheCanStore(c: SpecCache, channel: nat)
    requires SpecWellSized(c)
    ensures var g := GrowSpecCache(c, channel + 1);
      CanStore(CacheLengths(|g.samples|, |g.valid|), channel)
  {
  }
}

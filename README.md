# OpenHantek graph generator, modelled in Dafny

This project models the graph generator of OpenHantek (DSO6022 fork),
`openhantek/src/post/graphgenerator.cpp`. After acquisition and analysis,
the generator turns one post-processed frame (`PPresult`) into point lists
that the scope display draws. It has three views:

- **Time view (TY), voltage.** It works out whether the frame was
  triggered in software, and which skip offset to use. For each voltage
  channel it selects a trace, refuses traces of more than 500000 samples,
  drops the first `skip` samples, and maps each remaining sample to one
  point.
- **Time view (TY), spectrum.** The same, with no skip and the frequency
  base as divisor.
- **XY view.** Channels are paired: channel 2j is x and 2j + 1 is y. Each
  pair gives one list of (x, y) points, stored in the x channel's slot.

In the time view, each channel's trace is chosen by a small state machine
that keeps the *last triggered trace* per channel. A triggered frame shows
the new trace and remembers it, together with its skip offset. In NORMAL
trigger mode, an untriggered frame replays the remembered trace and its
skip. In any other mode, an untriggered frame shows its own free-running
trace and forgets the remembered one. An unused channel, or one without
data, shows nothing and is forgotten.

Modules:

- `Scope` (scope.dfy): the display settings the generator reads, and
  unsigned 32-bit wrap-around.
- `Frames` (frames.dfy): sample values, points, the trigger position, and
  the `PPresult` object whose graph lists the generator fills.
- `ChannelTransform` (transform.dfy): the per-sample formulas and the three
  fill loops.
- `TraceCache` (tracecache.dfy): the per-channel caches, the selectors'
  decision for one channel, and the decisions of a whole channel loop.
  The skip offset is shared from one channel to the next.
- `GraphSpec` (graphspec.dfy): what each builder must leave behind, as
  ghost predicates over a whole frame, with lemmas about them.
- `Generator` (generator.dfy): `class GraphGenerator`. The caches, the
  shared `skipSamples` and `ready` are its fields. Its methods are proved
  against `GraphSpec`.

Some of the source's state lives elsewhere and is modelled as follows:

- The caches are function-local `static` vectors. Here they are fields of
  the generator.
- The settings are reached through a pointer to live settings. Here they
  are a parameter of each call.
- A refused trace (the source throws) ends the call with an `Aborted`
  status that names the view, the channel and the error.

## Model

| member | source | states |
|---|---|---|
| `Scope.Wrap32` | openhantek/src/post/graphgenerator.cpp:109 | The value an `unsigned` variable holds after an `int`-valued assignment: the value reduced modulo 2^32. Its properties are stated by `Wrap32Congruent`. |
| `Scope.Wrap32Congruent` | openhantek/src/post/graphgenerator.cpp:109 | Assigning to an `unsigned` keeps a value that fits, adds 2^32 to a negative difference, and is always congruent modulo 2^32. |
| `Frames.PPresult.constructor` | openhantek/src/post/graphgenerator.cpp:106-111 | A frame carries its analysed data per channel (fixed), a triggered flag that starts false, and the voltage and spectrum graph lists the generator fills. |
| `Frames.PPresult.ChannelCount` | openhantek/src/post/graphgenerator.cpp:106 | The number of channels the frame carries, against which the trigger source is checked. |
| `Frames.PPresult.DataOf` | openhantek/src/post/graphgenerator.cpp:28 | A channel's analysed data, or none. There is never data for a channel beyond the frame's channel count. |
| `ChannelTransform.TimeX` | openhantek/src/post/graphgenerator.cpp:146 | The horizontal position of sample number `position`: position × factor − DIVS_TIME/2. The same formula serves the spectrum at line 187. |
| `ChannelTransform.VoltageY` | openhantek/src/post/graphgenerator.cpp:147 | The height of a voltage sample: divided by the channel's gain, negated for an inverted channel, plus the channel's offset. The XY view uses it for both axes (248-249). `VoltageRoundTrip` proves it invertible. |
| `ChannelTransform.SpectrumY` | openhantek/src/post/graphgenerator.cpp:188 | The height of a spectrum sample: divided by the magnitude, plus the offset. `SpectrumRoundTrip` proves it invertible. |
| `ChannelTransform.VoltageRoundTrip` | openhantek/src/post/graphgenerator.cpp:139-147 | The voltage height formula (divide by gain, apply inversion, add offset) loses nothing: the raw sample is recovered from the height. So distinct samples get distinct heights. |
| `ChannelTransform.SpectrumRoundTrip` | openhantek/src/post/graphgenerator.cpp:183-188 | The same for the spectrum height (divide by magnitude, add offset). |
| `ChannelTransform.VoltagePoints` | openhantek/src/post/graphgenerator.cpp:145-147 | One point per sample, in order. Point i has x = (position + i)·factor − DIVS_TIME/2, the sample's voltage height as y, and z = 0. |
| `ChannelTransform.SpectrumPoints` | openhantek/src/post/graphgenerator.cpp:186-188 | The same for spectrum samples. |
| `ChannelTransform.XYPoints` | openhantek/src/post/graphgenerator.cpp:233-250 | Exactly min(\|x\|, \|y\|) points. Point i pairs the height of x sample i with the height of y sample i. |
| `ChannelTransform.AppendVoltagePoints` | openhantek/src/post/graphgenerator.cpp:128-148 | The fill loop appends count − skip points to the slot's existing contents. Point i comes from sample skip + i. |
| `ChannelTransform.AppendSpectrumPoints` | openhantek/src/post/graphgenerator.cpp:173-189 | The spectrum fill loop appends one point per sample, in order, with no skip. |
| `ChannelTransform.AppendXYPoints` | openhantek/src/post/graphgenerator.cpp:233-250 | The XY fill loop appends the min(\|x\|, \|y\|) paired points to the x slot. |
| `TraceCache.GrowVoltCache` | openhantek/src/post/graphgenerator.cpp:46-47 | The corrected half of the voltage finding. Growing the cache on demand changes no channel's entry, and all three vectors get the same new length. The source grows only the sample vector. |
| `TraceCache.GrowSpecCache` | openhantek/src/post/graphgenerator.cpp:76-77 | The corrected half of the spectrum finding. Both spectrum vectors grow together, with no entry changed. The source grows only the sample vector. |
| `TraceCache.ChooseVoltage` | openhantek/src/post/graphgenerator.cpp:40-60 | The voltage selector's decision for one channel. With no input it shows the empty trace, keeps the skip and invalidates the entry. The new entry is valid exactly when there is input and the frame is triggered or the remembered trace is replayed (NORMAL mode, valid entry). A triggered frame shows the current trace, keeps the skip passed in and stores both as a valid entry. An untriggered NORMAL frame with a valid entry shows the remembered trace and skip and keeps the entry, for however many frames the hold lasts. The trace shown differs from the current one, or the skip from the one passed in, only on such a replay. |
| `TraceCache.ChooseSpectrum` | openhantek/src/post/graphgenerator.cpp:70-88 | The spectrum selector's decision, the same without a skip: no input shows nothing and invalidates; a triggered frame shows and stores the current spectrum as valid; an untriggered NORMAL frame with a valid entry shows the remembered spectrum and keeps the entry; the spectrum shown differs from the current one only on such a replay. |
| `TraceCache.SkipEntering` | openhantek/src/post/graphgenerator.cpp:103-114 | The shared `skipSamples` as it stands when channel k is selected: the frame's skip before channel 0, then whatever the previous channel's selection left (line 55 overwrites it on a replay). Its properties are stated by `SkipWithoutHold` and `SkipAfterHold`. |
| `TraceCache.SkipWithoutHold` | openhantek/src/post/graphgenerator.cpp:103-114 | While no earlier channel replayed a trace, the shared skip is the frame's own skip. |
| `TraceCache.SkipAfterHold` | openhantek/src/post/graphgenerator.cpp:53-56 | Once channel j replays its trace, every later channel up to the next replay is handed j's remembered skip, even a channel that shows its own free-running trace. |
| `TraceCache.UnusedChannelChoice` | openhantek/src/post/graphgenerator.cpp:40-43 | An unused channel, or one without data, shows the empty trace. Its entry becomes invalid and the shared skip passes through unchanged. |
| `TraceCache.TriggeredFrameChoice` | openhantek/src/post/graphgenerator.cpp:45-51 | On a triggered frame a channel with data shows the new trace unchanged. It stores that trace with the frame's skip and marks it valid. |
| `TraceCache.NormalModeReplaysTriggeredTrace` | openhantek/src/post/graphgenerator.cpp:53-56 | A triggered frame followed by an untriggered NORMAL frame: the second frame shows the first frame's trace with the first frame's skip, and the entry stays as it was. |
| `TraceCache.DiscardedTraceIsNotReplayed` | openhantek/src/post/graphgenerator.cpp:58-60 | An untriggered frame outside NORMAL mode shows its own trace and invalidates the entry. A later untriggered frame then shows its own data, not the old trace. |
| `TraceCache.UnusedSpectrumChoice` | openhantek/src/post/graphgenerator.cpp:70-73 | An unused spectrum, or a channel without data, shows nothing and is invalidated. |
| `TraceCache.TriggeredSpectrumChoice` | openhantek/src/post/graphgenerator.cpp:74-80 | A triggered frame shows the new spectrum and remembers it as valid. |
| `TraceCache.NormalModeReplaysTriggeredSpectrum` | openhantek/src/post/graphgenerator.cpp:82-85 | A triggered frame followed by an untriggered NORMAL frame replays the first frame's spectrum and keeps the entry. |
| `TraceCache.DiscardedSpectrumIsNotReplayed` | openhantek/src/post/graphgenerator.cpp:86-88 | An untriggered frame outside NORMAL mode drops the remembered spectrum. |
| `TraceCache.ResizeAsWritten` | openhantek/src/post/graphgenerator.cpp:36-47 | As written, the on-demand resize grows only the sample vector. The skip and flag vectors keep their declared length. |
| `TraceCache.LengthsAfterAsWritten` | openhantek/src/post/graphgenerator.cpp:36-89 | After any sequence of triggered stores, as written, the sample vector has room for every stored channel, and the skip and flag vectors keep their declared length. |
| `TraceCache.StoreAsWrittenOutOfRange` | openhantek/src/post/graphgenerator.cpp:36-50 | As written, a triggered fourth channel (index 3) indexes the skip and flag vectors out of range, even after the resize. |
| `TraceCache.FlagsAsWrittenOutOfRange` | openhantek/src/post/graphgenerator.cpp:36-89 | As written, whatever frames came before, the flag vectors of both selectors (and the voltage skip vector) still have three elements. So any selection of channel 3 or above indexes them out of range, on every path. |
| `TraceCache.GrownCacheCanStore` | openhantek/src/post/graphgenerator.cpp:46-50 | With all three voltage vectors grown together, every channel index can be stored. |
| `TraceCache.GrownSpecCacheCanStore` | openhantek/src/post/graphgenerator.cpp:76-79 | With both spectrum vectors grown together, every channel index can be stored. |
| `GraphSpec.Resize` | openhantek/src/post/graphgenerator.cpp:111 | `resize(n)` leaves exactly n slots. It keeps the first slots and pads with empty graphs. |
| `GraphSpec.TriggerOf` | openhantek/src/post/graphgenerator.cpp:100-107 | The trigger triple is the software trigger's answer when the device triggers in software and the trigger source is one of the frame's channels. Otherwise it is (0, 0, 0). |
| `GraphSpec.SkipOf` | openhantek/src/post/graphgenerator.cpp:109 | The skip is start − pre when start ≥ pre. Otherwise it wraps to 2^32 − (pre − start). |
| `GraphSpec.NoSoftwareTriggerMeansUntriggered` | openhantek/src/post/graphgenerator.cpp:100-110 | Without a software-trigger device, or with a trigger source ≥ the channel count, the frame is not triggered and the skip is 0. |
| `GraphSpec.UseVoltSamplesOf` | openhantek/src/post/graphgenerator.cpp:25-30 | A used channel with data gives its voltage samples. Otherwise it gives the empty trace. |
| `GraphSpec.VoltInput` | openhantek/src/post/graphgenerator.cpp:40 | A channel's input to the voltage selector is absent exactly when the channel is unused or has no data. When present it is what `useVoltSamplesOf` returns; when absent `useVoltSamplesOf` returns the empty trace. |
| `GraphSpec.SpectrumInput` | openhantek/src/post/graphgenerator.cpp:70 | A channel's input to the spectrum selector is absent exactly when its spectrum is unused or it has no data. When present it is that channel's spectrum. |
| `GraphSpec.VoltInputs` | openhantek/src/post/graphgenerator.cpp:40-43 | One selector input per voltage channel. It is None exactly when the channel is unused or has no data. |
| `GraphSpec.SpectrumInputs` | openhantek/src/post/graphgenerator.cpp:70-73 | One spectrum selector input per loop iteration (per voltage channel). |
| `GraphSpec.XYInputs` | openhantek/src/post/graphgenerator.cpp:222-223 | The XY view reads every channel through `useVoltSamplesOf`, with no cache. |
| `GraphSpec.VoltGraph` | openhantek/src/post/graphgenerator.cpp:113-148 | An empty trace clears the slot. More than 500000 samples is an error, checked before the skip. A skip beyond the trace is an error. Otherwise the slot gains count − skip points, point i from sample skip + i. Errors happen exactly in these cases. |
| `GraphSpec.SpectrumGraph` | openhantek/src/post/graphgenerator.cpp:158-189 | An empty trace clears the slot. More than 500000 samples is the only error. Otherwise the slot gains count points, with no skip and the frequency base as divisor. |
| `GraphSpec.CeilingIsInclusive` | openhantek/src/post/graphgenerator.cpp:123-127 | 500000 samples are drawn; 500001 are refused. |
| `GraphSpec.UnusedChannelIsCleared` | openhantek/src/post/graphgenerator.cpp:114-121 | In a completed time view, an unused channel, or one without data, is cleared and its entry invalidated. |
| `GraphSpec.TriggeredFrameDrawsNewTrace` | openhantek/src/post/graphgenerator.cpp:109-148 | In a completed triggered time view, each channel with data shows its own trace with the frame's skip. The slot holds count − skip points, point i from sample skip + i. The cache remembers that trace and skip. |
| `GraphSpec.NormalModeRepeatsTriggeredGraph` | openhantek/src/post/graphgenerator.cpp:53-56 | After a completed triggered view, an untriggered NORMAL frame drawn from the same starting slot contents draws each channel that had data exactly as the triggered frame did. |
| `GraphSpec.ReplayedSkipReachesNextChannel` | openhantek/src/post/graphgenerator.cpp:112-114 | A replayed channel's remembered skip is applied to the next channel's own free-running trace. |
| `GraphSpec.RefusedTraceIsReplayed` | openhantek/src/post/graphgenerator.cpp:45-56 | A triggered trace refused for its size (124-126) is still remembered, because the selector stores it first (48-50). An untriggered NORMAL frame that follows replays it and refuses that channel again. |
| `GraphSpec.XYPairsKept` | openhantek/src/post/graphgenerator.cpp:212-251 | Drawing a later pair leaves the earlier pairs as drawn. |
| `GraphSpec.XYPairCount` | openhantek/src/post/graphgenerator.cpp:233-250 | In a completed XY view, a pair with data in both channels adds min(\|x\|, \|y\|) points after what the x slot already held. Added point i pairs sample i of each channel. |
| `Generator.GraphGenerator.constructor` | openhantek/src/post/graphgenerator.cpp:36-103 | A new generator is not ready. Its skip is 0, as `skipSamples` starts at line 103. The voltage cache (36-38) and the spectrum cache (67-68) each hold three invalid entries. |
| `Generator.GraphGenerator.IsReady` | openhantek/src/post/graphgenerator.cpp:95 | Reports `ready`. |
| `Generator.GraphGenerator.UseVoltSamplesTriggered` | openhantek/src/post/graphgenerator.cpp:33-61 | Returns the trace, the shared skip and the new entry that the selector's decision gives for this channel. No other channel's entry changes. The cache never shrinks. |
| `Generator.GraphGenerator.UseSpectrumSamplesTriggered` | openhantek/src/post/graphgenerator.cpp:64-89 | The spectrum selector: the same, without a skip. |
| `Generator.GraphGenerator.GenerateGraphsTYvoltage` | openhantek/src/post/graphgenerator.cpp:98-150 | Sets the triggered flag from the trigger triple. Leaves the voltage graphs, the cache and the shared skip exactly as the voltage outcome of the frame prescribes. The spectrum graphs, the spectrum cache and `ready` are not touched. |
| `Generator.GraphGenerator.BeginVoltageFrame` | openhantek/src/post/graphgenerator.cpp:100-111 | Sets the skip to SkipOf and the triggered flag to post > pre of the trigger triple, and resizes the voltage list to one slot per channel. |
| `Generator.GraphGenerator.DrawVoltageChannels` | openhantek/src/post/graphgenerator.cpp:112-149 | The channel loop reaches the voltage outcome: all channels drawn, or the first refused channel ends the view. |
| `Generator.GraphGenerator.DrawVoltageChannel` | openhantek/src/post/graphgenerator.cpp:113-148 | One channel is selected and drawn, extending the drawn prefix by that channel. If it is refused, the aborted outcome holds. |
| `Generator.GraphGenerator.GenerateGraphsTYspectrum` | openhantek/src/post/graphgenerator.cpp:153-191 | Sets `ready`. Sizes the spectrum list by the spectrum settings, loops over the voltage channels, and reaches the spectrum outcome. The voltage side is not touched. |
| `Generator.GraphGenerator.DrawSpectrumChannel` | openhantek/src/post/graphgenerator.cpp:158-189 | One spectrum channel is selected and drawn, or refused. |
| `Generator.GraphGenerator.GenerateGraphsXY` | openhantek/src/post/graphgenerator.cpp:205-252 | Every spectrum graph is cleared and a trailing unpaired channel is cleared. A pair with an empty channel has both slots cleared. Otherwise the x slot gains the paired points and the y slot is left as it was. No cache changes. |
| `Generator.GraphGenerator.Process` | openhantek/src/post/graphgenerator.cpp:194-202 | In TY format: `ready` is set, the voltage view is built, and then the spectrum view, unless the voltage view was refused (the spectrum side is then untouched). In XY format: only the XY view is built, and `ready`, the caches and the skip are unchanged. |

## Left out

- Floating point: the source computes in `float` and `double` and casts to
  `float` for `QVector3D` (lines 135, 146-147, 179, 187-188, 248-249). The
  model computes over `real` and makes no claim about rounding.
- `qWarning` and `throw new std::runtime_error` (lines 125-126, 170-171)
  are modelled as an `Aborted` status. The exception's propagation out of
  `process`, and what the caller does with it, are not modelled.
  `Process` returns the status and stops building.
- `target.reserve(...)` (lines 132, 176, 235) only affects capacity and is
  not modelled.
- The disabled `#if 0` block (lines 15-22).
- Qt includes, `QMutex` and rendering. Nothing in the generator is
  concurrent.
- `SoftwareTrigger::compute` (line 107) is an input triple `(pre, post,
  start)`. softwaretrigger.cpp is not part of this model.
- `DIVS_TIME / 2` is the uninterpreted constant `HalfTimeDivs`.
  viewconstants.h is not part of this model.
- ppresult.h is not part of this model. `PPresult` holds only what the
  generator reads and writes: the per-channel data, the channel count, the
  triggered flag and the two graph lists.
- graphgenerator.h is not part of this model. The constructor starts with
  `ready` false.
- The cache vectors are function-local statics, shared by every generator
  in the process. The model keeps them per generator, which is the same
  behaviour for one generator.
- `Generator.GraphGenerator.GenerateGraphsTYspectrum` requires at least as
  many spectrum settings as voltage settings. The source indexes
  `scope->spectrum[channel]` for every voltage channel, which is out of
  range otherwise.
- `Generator.GraphGenerator.Process` requires nonzero gains, magnitudes,
  timebase and frequency base. The source would divide by zero and draw
  infinite or NaN coordinates, which `real` cannot express. The same
  applies to `GenerateGraphsTYvoltage`, `GenerateGraphsXY` and the point
  functions.
- Skip beyond the trace, with a 64-bit `size_t`: when the skip exceeds
  the trace length, `sampleCount -= skipSamples` (line 128) wraps the
  count around to nearly 2^64, and line 132 asks `reserve` for twice that
  many points. If `ChannelGraph` is a `std::vector`, that request throws
  `std::length_error` before line 143 could read past the trace.
  graphgenerator.h, which defines `ChannelGraph`, is not part of this
  model. The model stands for that failure by refusing the channel with
  `SkipBeyondSamples` and drawing nothing further.
- Skip beyond the trace, with a 32-bit `size_t`: a skip that wrapped at
  line 109 (start < pre) makes line 128 give the small count
  count + (pre − start), so `reserve` succeeds, and `std::advance` at
  line 143 moves the iterator before the start of the trace, so the
  points read are undefined and nothing aborts. The model does not
  capture this build: it refuses the channel with the same
  `SkipBeyondSamples` abort.
- modelRP2040.cpp and modelRP2040.h: device configuration tables and USB
  command registration, with no logic of the generator.

## Findings

| source | as written | input that shows it | evidently intended | confidence | as-written member | corrected member |
|---|---|---|---|---|---|---|
| openhantek/src/post/graphgenerator.cpp:36-60 | `lastSamples` is resized on demand, but `lastSkip` and `samplesValid` stay at three elements. Every path reads or writes `samplesValid[channel]` (lines 41, 50, 54, 59), and the triggered path also writes `lastSkip[channel]` (49), all out of range for channel 3. | a scope with four voltage channels: any frame that reaches channel 3, used or not, triggered or not | grow all three vectors together | medium, not executed | `TraceCache.FlagsAsWrittenOutOfRange` | `TraceCache.GrowVoltCache` |
| openhantek/src/post/graphgenerator.cpp:66-89 | The spectrum selector has the same defect: `lastSamples` is resized on demand (76-77), but `samplesValid` stays at three elements. It is read or written at `channel` on every path (lines 71, 79, 83, 87), out of range for channel 3. | a scope with four channels: any spectrum selection of channel 3 | grow both vectors together | medium, not executed | `TraceCache.FlagsAsWrittenOutOfRange` | `TraceCache.GrowSpecCache` |

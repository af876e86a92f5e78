/**
 * Display settings that the graph generator reads (the scope settings
 * object of OpenHantek), and the unsigned arithmetic the generator uses.
 * The settings are owned by the settings collaborator; the generator
 * never changes them.
 */
module Scope {

  /** A C++ `unsigned` value: 32 bits, no sign. */
  type u32 = x: nat | x < 0x1_0000_0000

  /** The value an `unsigned` variable holds after being assigned `x`:
      unsigned arithmetic wraps modulo 2^32. */
  function Wrap32(x: int): (r: u32)
  {
    x % 0x1_0000_0000
  }

  /** Wrap32 keeps a value that fits, adds 2^32 to a negative difference
      that fits, and always stays congruent to its argument modulo 2^32. */
  lemma Wrap32Congruent(x: int)
    ensures 0 <= x < 0x1_0000_0000 ==> Wrap32(x) == x
    ensures -0x1_0000_0000 <= x < 0 ==> Wrap32(x) == x + 0x1_0000_0000
    ensures (Wrap32(x) - x) % 0x1_0000_0000 == 0
  {
  }

  /** How the display behaves while no trigger condition is met. */
  datatype TriggerMode = Roll | Auto | Normal | Single

  /** Time/frequency view (TY) or one channel plotted against another (XY). */
  datatype GraphFormat = TY | XY

  /** Per-channel voltage settings: whether the channel is shown, the gain
      divisor (the settings' gain for that channel), the vertical offset and
      the inversion flag. */
  datatype VoltageChannel = VoltageChannel(used: bool, gain: real, offset: real, inverted: bool)

  /** Per-channel spectrum settings: whether the spectrum is shown, the
      magnitude divisor and the vertical offset. */
  datatype SpectrumChannel = SpectrumChannel(used: bool, magnitude: real, offset: real)

  /** The settings read by one call of the generator. */
  datatype ScopeSettings = ScopeSettings(
    voltage: seq<VoltageChannel>,
    spectrum: seq<SpectrumChannel>,
    format: GraphFormat,
    timebase: real,
    frequencybase: real,
    triggerMode: TriggerMode,
    triggerSource: nat)

  /** No voltage channel has a zero gain divisor. */
  predicate GainsNonZero(scope: ScopeSettings)
  {
    forall k :: 0 <= k < |scope.voltage| ==> scope.voltage[k].gain != 0.0
  }

  /** No spectrum channel has a zero magnitude divisor. */
  predicate MagnitudesNonZero(scope: ScopeSettings)
  {
    forall k :: 0 <= k < |scope.spectrum| ==> scope.spectrum[k].magnitude != 0.0
  }
}

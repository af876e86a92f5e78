/**
 * One acquisition frame as the graph generator sees it: per-channel sample
 * values, the trigger position found by the software trigger, and the
 * result object the generator writes its graphs into.
 */
module Frames {

  import opened Scope

  datatype Option<T> = None | Some(value: T)

  /** A sample sequence and the time (or frequency step) between samples. */
  datatype SampleValues = SampleValues(sample: seq<real>, interval: real)

  /** The default-constructed sample values: no samples at all. */
  const NoSamples := SampleValues([], 0.0)

  /** What the data analyzer produced for one channel. */
  datatype ChannelData = ChannelData(voltage: SampleValues, spectrum: SampleValues)

  /** A display point; z is always 0. */
  datatype Point = Point(x: real, y: real, z: real)

  /** The points drawn for one channel, in sample order. */
  type ChannelGraph = seq<Point>

  /** The software trigger's answer for a frame: the number of samples before
      and after the trigger point, and the index where the trace starts. */
  datatype TriggerPosition = TriggerPosition(pre: u32, post: u32, start: u32)

  /** The post-processing result of one frame. The analysed data is fixed;
      the generator sets the triggered flag and fills the two graph lists. */
  class PPresult {
    const data: seq<Option<ChannelData>>
    var softwareTriggerTriggered: bool
    var vaChannelVoltage: seq<ChannelGraph>
    var vaChannelSpectrum: seq<ChannelGraph>

    constructor (data: seq<Option<ChannelData>>, voltageGraphs: seq<ChannelGraph>, spectrumGraphs: seq<ChannelGraph>)
      ensures this.data == data && !softwareTriggerTriggered
      ensures vaChannelVoltage == voltageGraphs && vaChannelSpectrum == spectrumGraphs
    {
      this.data := data;
      softwareTriggerTriggered := false;
      vaChannelVoltage := voltageGraphs;
      vaChannelSpectrum := spectrumGraphs;
    }

    /** Number of channels the frame carries. */
    function ChannelCount(): nat
    {
      |data|
    }

    /** The analysed data of `channel`, or None when there is none. */
    function DataOf(channel: nat): (r: Option<ChannelData>)
      ensures r.Some? ==> channel < ChannelCount()
    {
      if channel < |data| then data[channel] else None
    }
  }
}

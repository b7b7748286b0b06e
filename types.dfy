// The closed enumerations of the oscilloscope: sample formats and drawing
// styles of a probe, trigger modes, edges and states, and channel names.

module OscTypes {

  /** OscProbe.Format: how many components of a sample are meaningful. */
  datatype Format = Float | Vector2 | Vector3

  /** OscProbe.Style: analog trace or logic-analyser trace. */
  datatype Style = Default | Logic

  /** OscTrigger.TriggerMode, in declaration order. */
  datatype TriggerMode = Auto | Normal | Single

  /** OscTrigger.TriggerEdge */
  datatype TriggerEdge = Rising | Falling

  /** OscTrigger.Status: the trigger's acquisition state. */
  datatype Status = Armed | Ready | Triggered | AutoRun | Stop

  /** OscChannel.Name: C1..C8, numbered 0..7 as the C# enum is. */
  datatype ChannelName = C1 | C2 | C3 | C4 | C5 | C6 | C7 | C8
  {
    function Ordinal(): (n: nat)
      ensures n < 8
    {
      match this
      case C1 => 0 case C2 => 1 case C3 => 2 case C4 => 3
      case C5 => 4 case C6 => 5 case C7 => 6 case C8 => 7
    }
  }

  const TRIGGER_MODES: seq<TriggerMode> := [Auto, Normal, Single]
  const TRIGGER_EDGES: seq<TriggerEdge> := [Rising, Falling]
  const STYLES: seq<Style> := [Default, Logic]
  const CHANNEL_NAMES: seq<ChannelName> := [C1, C2, C3, C4, C5, C6, C7, C8]
}

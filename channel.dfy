// A channel of the oscilloscope and the probe plugged into it: the probe
// carries the default settings and the logged sample, the channel copies
// those settings on plugging, acquires samples into its ring buffer (raw or
// DC-decoupled), quantises its gain and reads the buffer back scaled and
// offset. The channel and the probe refer to each other, so both live here.

module Channel {
  import opened Numerics
  import opened OscTypes
  import opened Settings
  import Quantizer
  import opened MinMax

  /** The entries of OscValue.Gain, volts per division, in descending order. */
  function GainTable(): (t: seq<real>)
    ensures |t| == 30 && Quantizer.Positive(t)
  {
    Quantizer.GainTableShape();
    Quantizer.GAIN.availableGains
  }

  /** The gain table holds distinct entries, largest first. */
  lemma GainTableDescending()
    ensures Quantizer.StrictlyDescending(GainTable())
  {
    Quantizer.GainTableShape();
  }

  /** The sample after a read callback, if any, has logged into the probe. */
  function ReadIn(readSample: Option<Vec3 -> Vec3>, s: Vec3): Vec3
  {
    match readSample
    case None => s
    case Some(f) => f(s)
  }

  /**
   * The gain reached by stepping `delta` entries away from the entry
   * nearest to g, saturating at both ends of the table.
   */
  function GainStep(g: real, delta: int): (r: real)
    ensures r in GainTable()
  {
    var t := GainTable();
    t[ClampIndex(Quantizer.NearestIndex(t, g) + delta, |t|)]
  }

  /** Stepping towards larger indices never increases a gain of the table, and stepping back never decreases it. */
  lemma GainStepMonotone(g: real)
    requires g in GainTable()
    ensures GainStep(g, 1) <= g && GainStep(g, -1) >= g
  {
    GainTableDescending();
    Quantizer.MemberSnapsToItself(GainTable(), g);
  }

  /** One step and the opposite step return to the start, except at the saturated ends. */
  lemma GainStepInverse(k: int)
    requires 0 <= k < |GainTable()|
    ensures k < |GainTable()| - 1 ==> GainStep(GainStep(GainTable()[k], 1), -1) == GainTable()[k]
    ensures k > 0 ==> GainStep(GainStep(GainTable()[k], -1), 1) == GainTable()[k]
    ensures k == |GainTable()| - 1 ==> GainStep(GainTable()[k], 1) == GainTable()[k]
    ensures k == 0 ==> GainStep(GainTable()[k], -1) == GainTable()[k]
  {
    var t := GainTable();
    GainTableDescending();
    Quantizer.NearestOfMember(t, k);
    if k < |t| - 1 {
      Quantizer.NearestOfMember(t, k + 1);
    }
    if k > 0 {
      Quantizer.NearestOfMember(t, k - 1);
    }
  }

  /** A gain already in the table is in range of the scan and snaps to itself. */
  lemma SnapOfMember(value: real)
    requires value in GainTable()
    ensures Quantizer.Reaches(GainTable(), value)
    ensures Quantizer.NearestEntry(GainTable(), value) == value
  {
    GainTableDescending();
    Quantizer.MemberSnapsToItself(GainTable(), value);
  }

  /**
   * The probe of the VARP tree: a named input with the default settings a
   * channel copies when the probe is plugged, and the sample user code logs.
   */
  class OscProbe {
    /** IsNullProbe: true only for the shared OscProbe.Null instance. */
    const isNull: bool
    var position: real
    var autoGain: bool
    var autoGainDivisions: int
    var mode: TriggerMode
    var edge: TriggerEdge
    var triggerLevel: real
    var decoupling: bool
    var format: Format
    var style: Style
    /** readSample(probe): a callback that logs into the probe, modelled by its effect on `sample`. */
    var readSample: Option<Vec3 -> Vec3>
    /** readTriggerSample(channel): modelled as a function of the channel's current sample. */
    var readTriggerSample: Option<Vec3 -> real>
    var gain: real
    /** The channel this probe is shown on, if any. */
    var gui: OscChannel?
    var sample: Vec3

    /** The gain always holds an entry of the gain table. */
    predicate Valid()
      reads this
    {
      gain in GainTable()
    }

    /** Every setting a channel copies, unchanged between two states. */
    twostate predicate SameSettings()
      reads this
    {
      && position == old(position) && autoGain == old(autoGain)
      && autoGainDivisions == old(autoGainDivisions) && mode == old(mode) && edge == old(edge)
      && triggerLevel == old(triggerLevel) && decoupling == old(decoupling)
      && format == old(format) && style == old(style) && readSample == old(readSample)
      && readTriggerSample == old(readTriggerSample) && gain == old(gain)
    }

    /** A new probe: the field initialisers, both delegates null, no channel. */
    constructor (name: string)
      ensures !isNull && Valid()
      ensures position == 0.0 && !autoGain && autoGainDivisions == 2
      ensures mode == Auto && edge == Rising && triggerLevel == 0.0
      ensures !decoupling && format == Float && style == Default
      ensures readSample == None && readTriggerSample == None
      ensures gain == 1.0 && gui == null && sample == ZERO
    {
      isNull := false;
      position, autoGain, autoGainDivisions := 0.0, false, 2;
      mode, edge, triggerLevel := Auto, Rising, 0.0;
      decoupling, format, style := false, Float, Default;
      readSample, readTriggerSample := None, None;
      gain, gui, sample := 1.0, null, ZERO;
      Quantizer.UnitGainEntry();
    }

    /** OscProbe.Null: a probe built by the same constructor and recognised by identity. */
    constructor Null()
      ensures isNull && Valid()
      ensures position == 0.0 && !autoGain && autoGainDivisions == 2
      ensures mode == Auto && edge == Rising && triggerLevel == 0.0
      ensures !decoupling && format == Float && style == Default
      ensures readSample == None && readTriggerSample == None
      ensures gain == 1.0 && gui == null && sample == ZERO
    {
      isNull := true;
      position, autoGain, autoGainDivisions := 0.0, false, 2;
      mode, edge, triggerLevel := Auto, Rising, 0.0;
      decoupling, format, style := false, Float, Default;
      readSample, readTriggerSample := None, None;
      gain, gui, sample := 1.0, null, ZERO;
      Quantizer.UnitGainEntry();
    }

    predicate IsNullProbe()
      reads this
    {
      isNull
    }

    /** The Gain setter: stores the table entry nearest to the value. */
    method SetGain(value: real)
      requires Quantizer.Reaches(GainTable(), value)
      modifies this`gain
      ensures Valid()
      ensures gain == Quantizer.NearestEntry(GainTable(), value)
      ensures forall j :: 0 <= j < |GainTable()| ==> Abs(value - gain) <= Abs(value - GainTable()[j])
      ensures sample == old(sample) && gui == old(gui) && format == old(format)
    {
      gain := Quantizer.GAIN.GetValue(value);
    }

    /** Log(float): only x is written. */
    method LogFloat(value: real)
      modifies this
      ensures sample == old(sample).(x := value)
      ensures SameSettings() && gui == old(gui)
    {
      sample := sample.(x := value);
    }

    /** Log(int): the integer converted to float, into x only. */
    method LogInt(value: int)
      modifies this
      ensures sample == old(sample).(x := value as real)
      ensures SameSettings() && gui == old(gui)
    {
      sample := sample.(x := value as real);
    }

    /** Log(bool): 1 for true and 0 for false, into x only. */
    method LogBool(value: bool)
      modifies this
      ensures sample == old(sample).(x := if value then 1.0 else 0.0)
      ensures SameSettings() && gui == old(gui)
    {
      sample := sample.(x := if value then 1.0 else 0.0);
    }

    /** Log(Vector2) and Log(x, y): z is left as it was. */
    method LogVector2(x: real, y: real)
      modifies this
      ensures sample == Vec3(x, y, old(sample).z)
      ensures SameSettings() && gui == old(gui)
    {
      sample := sample.(x := x);
      sample := sample.(y := y);
    }

    /** Log(Vector3) and Log(x, y, z). */
    method LogVector3(x: real, y: real, z: real)
      modifies this
      ensures sample == Vec3(x, y, z)
      ensures SameSettings() && gui == old(gui)
    {
      sample := sample.(x := x);
      sample := sample.(y := y);
      sample := sample.(z := z);
    }

    /** Log(Color): r, g and b become x, y and z; alpha is dropped. */
    method LogColor(value: Color)
      modifies this
      ensures sample == Vec3(value.r, value.g, value.b)
      ensures SameSettings() && gui == old(gui)
    {
      sample := sample.(x := value.r);
      sample := sample.(y := value.g);
      sample := sample.(z := value.b);
    }

    /**
     * Apply: re-runs the plug handler of the channel showing this probe, if
     * there is one; the result says whether the trigger must re-read its
     * channel.
     */
    method Apply(triggerChannel: OscChannel?) returns (notifyTrigger: bool)
      requires gui != null ==> gui.probe != null && gui.probe.Valid()
      modifies gui
      ensures gui == null ==> !notifyTrigger
      ensures gui != null ==> gui.probe == old(gui.probe) && gui.Mirrors(gui.probe)
      ensures gui != null ==> gui.sample == ZERO && gui.dclevel == ZERO
      ensures gui != null ==> notifyTrigger == (triggerChannel == gui)
    {
      notifyTrigger := false;
      if gui != null {
        notifyTrigger := gui.OnPlugHandle(triggerChannel);
      }
    }
  }

  /**
   * One input channel: its settings copied from the probe, the ring buffer
   * of acquired samples, the current and DC-level samples and the running
   * min/max statistics.
   */
  /** A stored sample as the channel's readers return it: every component scaled, then offset by the position. */
  function Reading(v: Vec3, scale: real, position: real): Vec3
  {
    Vec3(v.x * scale + position, v.y * scale + position, v.z * scale + position)
  }

  class OscChannel {
    const channelName: ChannelName
    /** Colour id used for the trace. */
    const color: int
    var trigMode: TriggerMode
    var trigEdge: TriggerEdge
    var trigLevel: real
    var isPlugged: bool
    var probe: OscProbe?
    var sample: Vec3
    var dclevel: Vec3
    var readTriggerSample: Option<Vec3 -> real>
    var readSample: Option<Vec3 -> Vec3>
    const minMax: OscMinMax
    var buffer: array<Vec3>
    var format: Format
    var gain: real
    var scale: real
    var position: real
    var autoGain: bool
    var autoDivisions: real
    var decoupling: bool
    var style: Style
    var isDirtyConfigText: bool
    var isDirtyStatusText: bool

    /** The channel shows the settings of probe p, as OnPlugHandle leaves them. */
    ghost predicate Mirrors(p: OscProbe)
      reads this, p
    {
      && p.gain != 0.0 && gain == p.gain && scale == 1.0 / p.gain
      && AttenuatorOf(p) && TriggerSettingsOf(p) && isPlugged == !p.isNull
    }

    /** Coupling, format, position, auto gain and style as the probe declares them. */
    ghost predicate AttenuatorOf(p: OscProbe)
      reads this, p
    {
      && decoupling == p.decoupling && format == p.format && position == p.position
      && autoGain == p.autoGain && autoDivisions == p.autoGainDivisions as real && style == p.style
    }

    /** The trigger settings and the two delegates as the probe declares them. */
    ghost predicate TriggerSettingsOf(p: OscProbe)
      reads this, p
    {
      && trigMode == p.mode && trigEdge == p.edge && trigLevel == p.triggerLevel
      && readSample == p.readSample && readTriggerSample == p.readTriggerSample
    }

    twostate predicate SameAttenuator()
      reads this
    {
      && decoupling == old(decoupling) && format == old(format) && position == old(position)
      && autoGain == old(autoGain) && autoDivisions == old(autoDivisions) && style == old(style)
    }

    /** The probe, the buffer, the plugged flag and the current samples, unchanged. */
    twostate predicate SameConnection()
      reads this
    {
      && probe == old(probe) && buffer == old(buffer) && isPlugged == old(isPlugged)
      && sample == old(sample) && dclevel == old(dclevel)
    }

    twostate predicate SameTriggerSettings()
      reads this
    {
      && trigMode == old(trigMode) && trigEdge == old(trigEdge) && trigLevel == old(trigLevel)
      && readSample == old(readSample) && readTriggerSample == old(readTriggerSample)
    }

    /**
     * The field initialisers of a channel before Initialize: unit gain and
     * scale, two divisions for auto gain, no probe and no samples yet.
     */
    constructor (name: ChannelName, colorId: int)
      ensures channelName == name && color == colorId
      ensures probe == null && !isPlugged && buffer.Length == 0 && fresh(buffer) && fresh(minMax)
      ensures gain == 1.0 && scale == 1.0 && position == 0.0 && autoDivisions == 2.0
      ensures !autoGain && !decoupling && style == Default && format == Float
      ensures sample == ZERO && dclevel == ZERO
      ensures !minMax.isZero && minMax.min == 0.0 && minMax.max == 0.0 && minMax.p2p == 0.0
    {
      channelName, color := name, colorId;
      trigMode, trigEdge, trigLevel := Auto, Rising, 0.0;
      isPlugged, probe := false, null;
      sample, dclevel := ZERO, ZERO;
      readTriggerSample, readSample := None, None;
      minMax := new OscMinMax();
      buffer := new Vec3[0];
      format, gain, scale, position := Float, 1.0, 1.0, 0.0;
      autoGain, autoDivisions, decoupling, style := false, 2.0, false, Default;
      isDirtyConfigText, isDirtyStatusText := false, false;
    }

    /** Initialize: allocates the ring buffer and plugs the given probe. */
    method Initialize(oscProbe: OscProbe, bufferSize: nat, nullProbe: OscProbe, triggerChannel: OscChannel?)
        returns (notifyTrigger: bool)
      requires oscProbe.Valid() && nullProbe.isNull && nullProbe.Valid()
      modifies this, oscProbe.gui, if oscProbe.gui == null then null else oscProbe.gui.probe
      ensures fresh(buffer) && buffer.Length == bufferSize
      ensures probe == oscProbe && Mirrors(oscProbe)
      ensures sample == ZERO && dclevel == ZERO
      ensures triggerChannel == this ==> notifyTrigger
      ensures notifyTrigger ==> triggerChannel != null
    {
      buffer := new Vec3[bufferSize];
      notifyTrigger := Plug(oscProbe, nullProbe, triggerChannel);
    }

    /**
     * OnPlugHandle: copies the probe's settings (the gain through the Gain
     * setter), marks the channel plugged unless the probe is the null probe,
     * zeroes the sample and the DC level, and reports whether this channel
     * drives the trigger, which then re-reads its settings.
     */
    method OnPlugHandle(triggerChannel: OscChannel?) returns (notifyTrigger: bool)
      requires probe != null && probe.Valid()
      modifies this
      ensures probe == old(probe) && buffer == old(buffer)
      ensures Mirrors(probe)
      ensures gain in GainTable() && scale > 0.0
      ensures isDirtyConfigText && isDirtyStatusText
      ensures sample == ZERO && dclevel == ZERO
      ensures notifyTrigger == (triggerChannel == this)
    {
      var p := probe;
      SnapOfMember(p.gain);
      SetGain(p.gain);
      CopyAttenuator(p.decoupling, p.format, p.position, p.autoGain, p.autoGainDivisions as real, p.style);
      CopyTriggerSettings(p.mode, p.edge, p.triggerLevel, p.readSample, p.readTriggerSample);
      MarkPlugged(!p.IsNullProbe());
      notifyTrigger := triggerChannel == this;
    }

    /** The end of OnPlugHandle: the plugged flag, both dirty flags and zeroed samples. */
    method MarkPlugged(plugged: bool)
      modifies this`isPlugged, this`isDirtyConfigText, this`isDirtyStatusText, this`sample, this`dclevel
      ensures isPlugged == plugged && isDirtyConfigText && isDirtyStatusText
      ensures sample == ZERO && dclevel == ZERO
      ensures probe == old(probe) && buffer == old(buffer)
      ensures SameAttenuator() && SameTriggerSettings()
      ensures gain == old(gain) && scale == old(scale)
    {
      isPlugged, isDirtyConfigText, isDirtyStatusText := plugged, true, true;
      sample, dclevel := ZERO, ZERO;
    }

    /** The attenuator part of OnPlugHandle. */
    method CopyAttenuator(dec: bool, fmt: Format, pos: real, ag: bool, ad: real, st: Style)
      modifies this`decoupling, this`format, this`position, this`autoGain, this`autoDivisions, this`style
      ensures decoupling == dec && format == fmt && position == pos && autoGain == ag && autoDivisions == ad && style == st
      ensures SameTriggerSettings() && SameConnection()
      ensures gain == old(gain) && scale == old(scale)
    {
      decoupling, format, position, autoGain, autoDivisions, style := dec, fmt, pos, ag, ad, st;
    }

    /** The trigger part of OnPlugHandle: mode, edge, level and the delegates. */
    method CopyTriggerSettings(m: TriggerMode, e: TriggerEdge, l: real, rs: Option<Vec3 -> Vec3>, rt: Option<Vec3 -> real>)
      modifies this`trigMode, this`trigEdge, this`trigLevel, this`readSample, this`readTriggerSample
      ensures trigMode == m && trigEdge == e && trigLevel == l && readSample == rs && readTriggerSample == rt
      ensures SameAttenuator() && SameConnection()
      ensures gain == old(gain) && scale == old(scale)
    {
      trigMode, trigEdge, trigLevel, readSample, readTriggerSample := m, e, l, rs, rt;
    }

    /**
     * Unplug: nothing when no probe is attached; otherwise the probe forgets
     * this channel and the null probe takes its place.
     */
    method Unplug(nullProbe: OscProbe, triggerChannel: OscChannel?) returns (notifyTrigger: bool)
      requires nullProbe.isNull && nullProbe.Valid()
      modifies this, probe
      ensures old(probe) == null ==> unchanged(this) && !notifyTrigger
      ensures old(probe) != null ==> old(probe).gui == null && old(probe).SameSettings()
      ensures old(probe) != null ==> probe == nullProbe && Mirrors(nullProbe) && !isPlugged
      ensures old(probe) != null ==> sample == ZERO && dclevel == ZERO
      ensures old(probe) != null ==> notifyTrigger == (triggerChannel == this)
      ensures buffer == old(buffer)
    {
      notifyTrigger := false;
      if probe == null {
        return;
      }
      probe.gui := null;
      probe := nullProbe;
      notifyTrigger := OnPlugHandle(triggerChannel);
    }

    /**
     * Plug, as written: a channel still showing the probe is unplugged
     * first, then the probe is attached here. The probe is never told that
     * it is now shown on this channel: its `gui` is not set.
     */
    method Plug(oscProbe: OscProbe, nullProbe: OscProbe, triggerChannel: OscChannel?) returns (notifyTrigger: bool)
      requires oscProbe.Valid() && nullProbe.isNull && nullProbe.Valid()
      modifies this, oscProbe.gui, if oscProbe.gui == null then null else oscProbe.gui.probe
      ensures probe == oscProbe && Mirrors(oscProbe) && buffer == old(buffer)
      ensures sample == ZERO && dclevel == ZERO
      ensures old(oscProbe.gui) == null ==> oscProbe.gui == null
      ensures var g := old(oscProbe.gui);
                g != null && g != this && old(g.probe) != null ==> g.probe == nullProbe && !g.isPlugged
      ensures triggerChannel == this ==> notifyTrigger
      ensures notifyTrigger ==> triggerChannel != null
    {
      notifyTrigger := false;
      var g := oscProbe.gui;
      if g != null {
        notifyTrigger := g.Unplug(nullProbe, triggerChannel);
      }
      probe := oscProbe;
      var n := OnPlugHandle(triggerChannel);
      notifyTrigger := notifyTrigger || n;
    }

    /**
     * AcquireSample: when plugged, runs the read callback on the probe, takes
     * the probe's sample (minus the running DC level when decoupling) and
     * stores it at the given buffer index; when unplugged, nothing changes.
     */
    method AcquireSample(dmaWrIdx: int, dt: real)
      requires isPlugged ==> probe != null && 0 <= dmaWrIdx < buffer.Length
      modifies this`sample, this`dclevel, buffer, (if probe != null then {probe} else {})`sample
      ensures !old(isPlugged) ==> unchanged(this) && unchanged(buffer) && (probe != null ==> unchanged(probe))
      ensures probe == old(probe) && buffer == old(buffer) && isPlugged == old(isPlugged)
      ensures gain == old(gain) && scale == old(scale) && position == old(position) && format == old(format)
      ensures readTriggerSample == old(readTriggerSample) && readSample == old(readSample) && decoupling == old(decoupling)
      ensures isPlugged ==> probe.sample == ReadIn(readSample, old(probe.sample))
      ensures isPlugged ==> probe.SameSettings() && probe.gui == old(probe.gui)
      ensures isPlugged && decoupling ==>
                dclevel == Lerp(old(dclevel), probe.sample, dt) && sample == Sub(probe.sample, dclevel)
      ensures isPlugged && !decoupling ==> dclevel == old(dclevel) && sample == probe.sample
      ensures isPlugged ==> buffer[..] == old(buffer[..])[dmaWrIdx := sample]
      ensures isPlugged && readTriggerSample.None? ==> AcquireTriggerSample() == buffer[dmaWrIdx].x
    {
      if isPlugged {
        if readSample.Some? {
          probe.sample := readSample.value(probe.sample);
        }
        if decoupling {
          var sampleIn := probe.sample;
          dclevel := Lerp(dclevel, sampleIn, dt);
          sample := Sub(sampleIn, dclevel);
        } else {
          sample := probe.sample;
        }
        SetAt(dmaWrIdx, sample);
      }
    }

    /** The value handed to the trigger: 0 when unplugged, else the delegate's value or sample.x. */
    function AcquireTriggerSample(): (r: real)
      reads this
      ensures !isPlugged ==> r == 0.0
      ensures isPlugged && readTriggerSample.None? ==> r == sample.x
      ensures isPlugged && readTriggerSample.Some? ==> r == readTriggerSample.value(sample)
    {
      if !isPlugged then 0.0
      else match readTriggerSample
        case None => sample.x
        case Some(f) => f(sample)
    }

    /** BeforeRender / OnTrigger: only the min/max statistics restart. */
    method OnTrigger()
      modifies minMax
      ensures minMax.isZero && minMax.min == FLOAT_MAX && minMax.max == 0.0
      ensures minMax.p2p == old(minMax.p2p)
      ensures minMax.Min() == 0.0 && minMax.Max() == 0.0
    {
      minMax.Reset();
    }

    /** The statistics of samples smpStart..smpEnd, folded into the running min and max. */
    method CalculateMinMax(smpStart: int, smpEnd: int) returns (changed: bool)
      requires buffer.Length == BUFFER_SIZE
      modifies minMax
      ensures minMax.min == ScanMin(buffer[..], smpStart, smpEnd, format, old(minMax.min))
      ensures minMax.max == ScanMax(buffer[..], smpStart, smpEnd, format, old(minMax.max))
      ensures minMax.p2p == minMax.max - minMax.min && !minMax.isZero
      ensures changed <==> minMax.p2p != old(minMax.p2p)
    {
      changed := minMax.CalculateMinMax(buffer[..], smpStart, smpEnd, format);
    }

    /**
     * ApplyAutoGain: when plugged with auto gain on, the gain becomes the
     * table entry that fits the peak-to-peak value; the field is written
     * directly, so the scale is not recomputed.
     */
    method ApplyAutoGain()
      modifies this`gain
      ensures !(isPlugged && autoGain) ==> gain == old(gain)
      ensures isPlugged && autoGain ==>
                gain == GainTable()[Quantizer.AutoGainIndex(GainTable(), minMax.p2p, autoDivisions)]
      ensures isPlugged && autoGain ==> gain in GainTable()
    {
      if isPlugged && autoGain {
        var t := GainTable();
        gain := Quantizer.GAIN.GetAutoGain(minMax.p2p, autoDivisions);
      }
    }

    /** The raw indexer: no masking, so the index must already be in range. */
    function At(idx: int): Vec3
      reads this, buffer
      requires 0 <= idx < buffer.Length
    {
      buffer[idx]
    }

    method SetAt(idx: int, value: Vec3)
      requires 0 <= idx < buffer.Length
      modifies buffer
      ensures buffer[..] == old(buffer[..])[idx := value]
    {
      buffer[idx] := value;
    }

    /** GetFloat: the x of the sample at the masked address, scaled and offset. */
    function GetFloat(idx: int): real
      reads this`buffer, this`scale, this`position, buffer
      requires buffer.Length == BUFFER_SIZE
    {
      Reading(buffer[Mask(idx)], scale, position).x
    }

    function GetVector3(idx: int): Vec3
      reads this`buffer, this`scale, this`position, buffer
      requires buffer.Length == BUFFER_SIZE
    {
      Reading(buffer[Mask(idx)], scale, position)
    }

    function GetVector2(idx: int): Real2
      reads this`buffer, this`scale, this`position, buffer
      requires buffer.Length == BUFFER_SIZE
    {
      var r := Reading(buffer[Mask(idx)], scale, position);
      Real2(r.x, r.y)
    }

    /**
     * The masked readers agree with each other and with the raw indexer on
     * in-range addresses, and addresses a buffer length apart read the same
     * sample.
     */
    lemma ReadersAgree(idx: int, k: int)
      requires buffer.Length == BUFFER_SIZE
      ensures GetVector3(idx).x == GetFloat(idx)
      ensures GetVector2(idx) == Real2(GetVector3(idx).x, GetVector3(idx).y)
      ensures GetVector3(idx + k * BUFFER_SIZE) == GetVector3(idx)
      ensures 0 <= idx < BUFFER_SIZE ==> GetFloat(idx) == At(idx).x * scale + position
    {
      MaskPeriodic(idx, k);
    }

    /** A sample stored at address i reads back, scaled and offset, at i and at every address a buffer length away. */
    lemma StoredReadsBack(i: int, k: int, v: Vec3)
      requires buffer.Length == BUFFER_SIZE && 0 <= i < BUFFER_SIZE && buffer[i] == v
      ensures GetVector3(i + k * BUFFER_SIZE) == Vec3(v.x * scale + position, v.y * scale + position, v.z * scale + position)
    {
      MaskPeriodic(i, k);
      assert Mask(i + k * BUFFER_SIZE) == i;
      assert GetVector3(i + k * BUFFER_SIZE) == Reading(v, scale, position);
    }

    /** Clear, as written: the loop writes element 0 on every pass, so only element 0 is zeroed. */
    method Clear()
      modifies buffer
      ensures buffer[..] == ClearedAsWritten(old(buffer[..]))
    {
      var i := 0;
      while i < buffer.Length
        invariant 0 <= i <= buffer.Length
        invariant buffer[..] == if i == 0 then old(buffer[..]) else old(buffer[..])[0 := ZERO]
      {
        ghost var pre := buffer[..];
        buffer[0] := ZERO;
        assert buffer[..] == pre[0 := ZERO];
        assert pre[0 := ZERO] == old(buffer[..])[0 := ZERO];
        i := i + 1;
      }
    }

    /** Clear as evidently intended: every element is zeroed. */
    method ClearAll()
      modifies buffer
      ensures buffer[..] == Cleared(old(buffer[..]))
    {
      var i := 0;
      while i < buffer.Length
        invariant 0 <= i <= buffer.Length
        invariant forall j :: 0 <= j < i ==> buffer[j] == ZERO
        invariant forall j :: i <= j < buffer.Length ==> buffer[j] == old(buffer[j])
      {
        buffer[i] := ZERO;
        i := i + 1;
      }
    }

    /** The Gain setter: the table entry nearest to the value, and the scale its reciprocal. */
    method SetGain(value: real)
      requires Quantizer.Reaches(GainTable(), value)
      modifies this`gain, this`scale, this`isDirtyConfigText
      ensures gain in GainTable() && gain > 0.0 && scale == 1.0 / gain && scale > 0.0
      ensures gain == Quantizer.NearestEntry(GainTable(), value)
      ensures value in GainTable() ==> gain == value
      ensures isDirtyConfigText && isDirtyStatusText == old(isDirtyStatusText)
      ensures SameAttenuator() && SameTriggerSettings() && SameConnection()
    {
      var t := GainTable();
      gain := Quantizer.GAIN.GetValue(value);
      scale := 1.0 / gain;
      isDirtyConfigText := true;
      if value in t {
        SnapOfMember(value);
      }
    }

    /** GainPlus: one entry further down the descending table, saturating at the smallest gain. */
    method GainPlus()
      modifies this`gain, this`scale, this`isDirtyConfigText
      ensures gain == GainStep(old(gain), 1) && gain > 0.0 && scale == 1.0 / gain
      ensures old(gain) in GainTable() ==> gain <= old(gain)
      ensures probe == old(probe) && buffer == old(buffer) && position == old(position)
      ensures isDirtyConfigText && isDirtyStatusText == old(isDirtyStatusText)
      ensures SameAttenuator() && SameTriggerSettings() && SameConnection()
    {
      var index := Quantizer.GAIN.GetValueIndex(gain);
      var v := Quantizer.GAIN.GetValueByIndex(index + 1);
      SnapOfMember(v);
      SetGain(v);
      if old(gain) in GainTable() {
        GainStepMonotone(old(gain));
      }
    }

    /** GainMinus: one entry back up the table, saturating at the largest gain. */
    method GainMinus()
      modifies this`gain, this`scale, this`isDirtyConfigText
      ensures gain == GainStep(old(gain), -1) && gain > 0.0 && scale == 1.0 / gain
      ensures old(gain) in GainTable() ==> gain >= old(gain)
      ensures probe == old(probe) && buffer == old(buffer) && position == old(position)
      ensures isDirtyConfigText && isDirtyStatusText == old(isDirtyStatusText)
      ensures SameAttenuator() && SameTriggerSettings() && SameConnection()
    {
      var index := Quantizer.GAIN.GetValueIndex(gain);
      var v := Quantizer.GAIN.GetValueByIndex(index - 1);
      SnapOfMember(v);
      SetGain(v);
      if old(gain) in GainTable() {
        GainStepMonotone(old(gain));
      }
    }

    /** The Scale setter goes through the Gain setter with the reciprocal. */
    method SetScale(value: real)
      requires value != 0.0 && Quantizer.Reaches(GainTable(), 1.0 / value)
      modifies this`gain, this`scale, this`isDirtyConfigText
      ensures gain == Quantizer.NearestEntry(GainTable(), 1.0 / value)
      ensures gain in GainTable() && gain > 0.0 && scale == 1.0 / gain
      ensures position == old(position) && probe == old(probe) && buffer == old(buffer)
      ensures isDirtyConfigText && isDirtyStatusText == old(isDirtyStatusText)
      ensures SameAttenuator() && SameTriggerSettings() && SameConnection()
    {
      SetGain(1.0 / value);
    }

    /** The Position setter. */
    method SetPosition(value: real)
      modifies this`position, this`isDirtyConfigText
      ensures position == value && isDirtyConfigText
      ensures gain == old(gain) && scale == old(scale) && probe == old(probe) && buffer == old(buffer)
      ensures isPlugged == old(isPlugged) && format == old(format) && style == old(style)
    {
      position := value;
      isDirtyConfigText := true;
    }

    /** The Decoupling setter: AC or DC coupling, and the configuration text marked. */
    method SetDecoupling(value: bool)
      modifies this`decoupling, this`isDirtyConfigText
      ensures decoupling == value && isDirtyConfigText
    {
      decoupling := value;
      isDirtyConfigText := true;
    }

    /** The AutoGain setter. */
    method SetAutoGain(value: bool)
      modifies this`autoGain, this`isDirtyConfigText
      ensures autoGain == value && isDirtyConfigText
    {
      autoGain := value;
      isDirtyConfigText := true;
    }

    /** The Style setter. */
    method SetStyle(value: Style)
      modifies this`style, this`isDirtyConfigText
      ensures style == value && isDirtyConfigText
    {
      style := value;
      isDirtyConfigText := true;
    }
  }

  /** The buffer after the as-written Clear: element 0 zeroed when there is one. */
  function ClearedAsWritten(s: seq<Vec3>): (r: seq<Vec3>)
    ensures |r| == |s|
  {
    if |s| == 0 then s else s[0 := ZERO]
  }

  /** The buffer every element of which is zero. */
  function Cleared(s: seq<Vec3>): (r: seq<Vec3>)
    ensures |r| == |s| && forall i :: 0 <= i < |r| ==> r[i] == ZERO
  {
    seq(|s|, i => ZERO)
  }

  /** A full buffer whose second sample is not zero keeps that sample through the as-written Clear. */
  lemma ClearKeepsTail()
    ensures var s := seq(BUFFER_SIZE, i => if i == 1 then Vec3(1.0, 0.0, 0.0) else ZERO);
              ClearedAsWritten(s)[1] == Vec3(1.0, 0.0, 0.0) && ClearedAsWritten(s) != Cleared(s)
  {
    var s := seq(BUFFER_SIZE, i => if i == 1 then Vec3(1.0, 0.0, 0.0) else ZERO);
    assert ClearedAsWritten(s)[1] != Cleared(s)[1];
  }
}

// The probe of the Oscilloscope/Src tree: user code logs values into
// `sampleIn`; the channel pulls a sample with GetSample, optionally
// DC-decoupled through a running Lerp average kept in `dclevel`.

module SampleProbe {
  import opened Numerics
  import opened OscTypes
  import Quantizer

  /** The default trigger delegate: the x of the last sample handed out. */
  function SampleX(v: Vec3): real
  {
    v.x
  }

  class OscProbe {
    /** IsNullProbe: true only for the shared Null instance, which the Null constructor builds. */
    const isNull: bool
    var position: real
    var autoGain: bool
    var autoGainDivisions: int
    var mode: TriggerMode
    var edge: TriggerEdge
    var triggerLevel: real
    var decoupling: bool
    var dclevel: Vec3
    var format: Format
    var style: Style
    /** readSample: a callback that logs into this probe, modelled by its effect on `sampleIn`. */
    var readSample: Option<Vec3 -> Vec3>
    /** readTriggerSample, modelled as a function of the last sample handed out. */
    var readTriggerSample: Option<Vec3 -> real>
    var gain: real
    var sampleIn: Vec3
    var sample: Vec3

    /** A new probe: the field initialisers plus a trigger delegate reading sample.x. */
    constructor (name: string)
      ensures !isNull
      ensures position == 0.0 && !autoGain && autoGainDivisions == 2
      ensures mode == Auto && edge == Rising && triggerLevel == 0.0
      ensures !decoupling && dclevel == ZERO && format == Float && style == Default
      ensures readSample == None && readTriggerSample == Some(SampleX)
      ensures gain == 1.0 && sampleIn == ZERO && sample == ZERO
    {
      isNull := false;
      position, autoGain, autoGainDivisions := 0.0, false, 2;
      mode, edge, triggerLevel := Auto, Rising, 0.0;
      decoupling, dclevel, format, style := false, ZERO, Float, Default;
      readSample, readTriggerSample := None, Some(SampleX);
      gain, sampleIn, sample := 1.0, ZERO, ZERO;
    }

    /** OscProbe.Null: the same defaults, flagged as the null probe. */
    constructor Null()
      ensures isNull
      ensures readSample == None && readTriggerSample == Some(SampleX)
      ensures gain == 1.0 && sampleIn == ZERO && sample == ZERO && dclevel == ZERO
    {
      isNull := true;
      position, autoGain, autoGainDivisions := 0.0, false, 2;
      mode, edge, triggerLevel := Auto, Rising, 0.0;
      decoupling, dclevel, format, style := false, ZERO, Float, Default;
      readSample, readTriggerSample := None, Some(SampleX);
      gain, sampleIn, sample := 1.0, ZERO, ZERO;
    }

    predicate IsNullProbe()
      reads this
    {
      isNull
    }

    /** The sample after the read callback, if any, has logged into the probe. */
    function ReadIn(): Vec3
      reads this
    {
      match readSample
      case None => sampleIn
      case Some(f) => f(sampleIn)
    }

    /**
     * GetSample(dt): runs the read callback, moves the DC level towards the
     * input by the factor dt and hands out the input minus the DC level.
     */
    method GetSampleDecoupled(dt: real) returns (r: Vec3)
      modifies this`sampleIn, this`dclevel, this`sample
      ensures sampleIn == old(ReadIn())
      ensures dclevel == Lerp(old(dclevel), sampleIn, dt)
      ensures r == sample && r == Sub(sampleIn, dclevel)
      ensures dt <= 0.0 ==> dclevel == old(dclevel)
      ensures dt >= 1.0 ==> r == ZERO
      ensures readSample == old(readSample) && readTriggerSample == old(readTriggerSample) && gain == old(gain)
    {
      if readSample.Some? {
        sampleIn := readSample.value(sampleIn);
      }
      dclevel := Lerp(dclevel, sampleIn, dt);
      LerpEnds(old(dclevel), sampleIn, dt);
      sample := Sub(sampleIn, dclevel);
      r := sample;
    }

    /** GetSample(): runs the read callback and hands out the input unchanged. */
    method GetSample() returns (r: Vec3)
      modifies this`sampleIn, this`sample
      ensures sampleIn == old(ReadIn())
      ensures r == sample == sampleIn
      ensures dclevel == old(dclevel) && gain == old(gain)
      ensures readSample == old(readSample) && readTriggerSample == old(readTriggerSample)
    {
      if readSample.Some? {
        sampleIn := readSample.value(sampleIn);
      }
      sample := sampleIn;
      r := sample;
    }

    /** Invoking the trigger delegate; a null delegate would throw. */
    function ReadTriggerSample(): (r: real)
      reads this
      requires readTriggerSample.Some?
      ensures readTriggerSample == Some(SampleX) ==> r == sample.x
    {
      readTriggerSample.value(sample)
    }

    /** The Gain setter: snaps the value to the gain table. */
    method SetGain(value: real)
      requires Quantizer.Reaches(Quantizer.GAIN.availableGains, value)
      modifies this`gain
      ensures gain in Quantizer.GAIN.availableGains
      ensures forall j :: 0 <= j < |Quantizer.GAIN.availableGains| ==>
                Abs(value - gain) <= Abs(value - Quantizer.GAIN.availableGains[j])
      ensures sampleIn == old(sampleIn) && sample == old(sample) && dclevel == old(dclevel)
    {
      gain := Quantizer.GAIN.GetValue(value);
    }

    method LogFloat(value: real)
      modifies this`sampleIn
      ensures sampleIn == old(sampleIn).(x := value)
      ensures sample == old(sample) && dclevel == old(dclevel) && gain == old(gain)
    {
      sampleIn := sampleIn.(x := value);
    }

    method LogInt(value: int)
      modifies this`sampleIn
      ensures sampleIn == old(sampleIn).(x := value as real)
      ensures sample == old(sample) && dclevel == old(dclevel) && gain == old(gain)
    {
      sampleIn := sampleIn.(x := value as real);
    }

    method LogBool(value: bool)
      modifies this`sampleIn
      ensures sampleIn == old(sampleIn).(x := if value then 1.0 else 0.0)
      ensures sample == old(sample) && dclevel == old(dclevel) && gain == old(gain)
    {
      sampleIn := sampleIn.(x := if value then 1.0 else 0.0);
    }

    /** Log(Vector2) and Log(x, y): z is left as it was. */
    method LogVector2(x: real, y: real)
      modifies this`sampleIn
      ensures sampleIn == Vec3(x, y, old(sampleIn).z)
      ensures sample == old(sample) && dclevel == old(dclevel) && gain == old(gain)
    {
      sampleIn := sampleIn.(x := x);
      sampleIn := sampleIn.(y := y);
    }

    /** Log(Vector3) and Log(x, y, z). */
    method LogVector3(x: real, y: real, z: real)
      modifies this`sampleIn
      ensures sampleIn == Vec3(x, y, z)
      ensures sample == old(sample) && dclevel == old(dclevel) && gain == old(gain)
    {
      sampleIn := sampleIn.(x := x);
      sampleIn := sampleIn.(y := y);
      sampleIn := sampleIn.(z := z);
    }

    /** Log(Color): r, g, b become x, y, z; alpha is dropped. */
    method LogColor(value: Color)
      modifies this`sampleIn
      ensures sampleIn == Vec3(value.r, value.g, value.b)
      ensures sample == old(sample) && dclevel == old(dclevel) && gain == old(gain)
    {
      sampleIn := sampleIn.(x := value.r);
      sampleIn := sampleIn.(y := value.g);
      sampleIn := sampleIn.(z := value.b);
    }
  }

  /** With dt = 0 the DC level stays where it was, so the output is the input minus that level. */
  lemma DecoupleHolds(dclevel: Vec3, input: Vec3)
    ensures Lerp(dclevel, input, 0.0) == dclevel
    ensures Sub(input, Lerp(dclevel, input, 0.0)) == Sub(input, dclevel)
  {
    LerpEnds(dclevel, input, 0.0);
  }

  /** With dt = 1 the DC level jumps to the input, so the decoupled output is zero. */
  lemma DecoupleFull(dclevel: Vec3, input: Vec3)
    ensures Sub(input, Lerp(dclevel, input, 1.0)) == ZERO
  {
    LerpEnds(dclevel, input, 1.0);
  }

  /** v lies in the closed interval spanned by a and b, whichever is larger. */
  predicate Between(a: real, b: real, v: real)
  {
    (a <= v <= b) || (b <= v <= a)
  }

  /** A product of two non-negative reals is non-negative. */
  lemma MulNonNegative(p: real, q: real)
    requires p >= 0.0 && q >= 0.0
    ensures p * q >= 0.0
  {
  }

  /** One component of Lerp with a factor in [0, 1] stays between its two ends. */
  lemma LerpComponentBetween(a: real, b: real, u: real)
    requires 0.0 <= u <= 1.0
    ensures Between(a, b, a + (b - a) * u)
  {
    var c := if a <= b then b - a else a - b;
    MulNonNegative(c, u);
    MulNonNegative(c, 1.0 - u);
    assert c * (1.0 - u) == c - c * u;
    assert (b - a) * u == if a <= b then c * u else -(c * u);
  }

  /**
   * Whatever the time step, the new DC level lies, component by component,
   * between the old level and the input; so the decoupled output lies
   * between zero and the input's distance from the old level.
   */
  lemma DecoupleTracks(dclevel: Vec3, input: Vec3, dt: real)
    ensures var l := Lerp(dclevel, input, dt);
              Between(dclevel.x, input.x, l.x) && Between(dclevel.y, input.y, l.y) && Between(dclevel.z, input.z, l.z)
    ensures var out := Sub(input, Lerp(dclevel, input, dt));
              && Between(0.0, input.x - dclevel.x, out.x)
              && Between(0.0, input.y - dclevel.y, out.y)
              && Between(0.0, input.z - dclevel.z, out.z)
  {
    var u := Clamp01(dt);
    LerpComponentBetween(dclevel.x, input.x, u);
    LerpComponentBetween(dclevel.y, input.y, u);
    LerpComponentBetween(dclevel.z, input.z, u);
  }
}

// OscTrigger: the acquisition state machine of the oscilloscope. Every
// fixed-update tick it acquires one sample on all channels (except when
// stopped), watches the trigger channel for an edge, and asks the
// oscilloscope to draw the samples acquired since the last draw. The
// counters are unmasked sample numbers; the ring buffer is addressed
// through Settings.Mask.
//
// The calls the trigger makes into the oscilloscope are returned as a list
// of effects, in call order, and the value the trigger delegate reads for
// this tick is a parameter.

module Trigger {
  import opened Numerics
  import opened OscTypes
  import Settings
  import Quantizer
  import Channel

  /** How many acquired samples wait before they are drawn (the trigger's own constant). */
  const SAMPLES_PER_DRAW: int := 3

  /** A call the trigger makes into the oscilloscope during a tick. */
  datatype Effect =
    /** Oscilloscope.AquireSampe(dmaWrite): every channel stores a sample at the masked address. */
    | Acquire(dmaWrite: int)
    /** Oscilloscope.Render(smpStart, smpEnd, pixStart, pixPerSample). */
    | Draw(smpStart: int, smpEnd: int, pixStart: real, pixPerSample: real)

  /** The fields a tick changes: the status, the pending ForceTrigger and the sample counters. */
  datatype Fsm = Fsm(
    status: Status,
    forceTrigger: bool,
    dmaDraw: int,
    dmaDrawBeg: int,
    dmaDrawEnd: int,
    dmaWrite: int,
    dmaWriteTrggrd: int,
    dmaWriteEnd: int,
    trigSample1: real,
    trigSample2: real,
    armingSamplesCount: int,
    numSamplesBeforeTrigger: int,
    numSamplesAfterTrigger: int)

  /** The edge settings a tick reads: the mode, the edge and the level. */
  datatype Setup = Setup(mode: TriggerMode, edge: TriggerEdge, level: real)

  /** The horizontal geometry RenderSamples reads: the centre offset and the pixel scale. */
  datatype Sweep = Sweep(sampAtCenterRel: int, pixelsPerSample: real, centerX: int)

  // ---------------------------------------------------------------------
  // Edge detection
  // ---------------------------------------------------------------------

  /** The two-sample edge test: the signal passes the level between prev and curr. */
  predicate Crosses(edge: TriggerEdge, prev: real, curr: real, level: real)
  {
    match edge
    case Rising => curr > level && prev <= level
    case Falling => curr < level && prev >= level
  }

  /**
   * ReadTrigger: Auto always fires, Normal fires on the selected edge, and
   * Single fires on the edge only after ForceTrigger; otherwise it answers
   * false.
   */
  function Fires(mode: TriggerMode, edge: TriggerEdge, force: bool, prev: real, curr: real, level: real): (r: bool)
    ensures mode == Auto ==> r
    ensures mode == Normal && edge == Rising ==> (r <==> prev <= level < curr)
    ensures mode == Normal && edge == Falling ==> (r <==> curr < level <= prev)
    ensures mode == Single && edge == Rising ==> (r <==> force && prev <= level < curr)
    ensures mode == Single && edge == Falling ==> (r <==> force && curr < level <= prev)
  {
    match mode
    case Auto => true
    case Normal => Crosses(edge, prev, curr, level)
    case Single => if force then Crosses(edge, prev, curr, level) else false
  }

  /** A falling edge is a rising edge of the negated signal through the negated level. */
  lemma FallingMirrorsRising(mode: TriggerMode, force: bool, prev: real, curr: real, level: real)
    ensures Fires(mode, Falling, force, prev, curr, level) == Fires(mode, Rising, force, -prev, -curr, -level)
  {
  }

  /** A signal that holds still never fires an edge trigger, and Single never fires without ForceTrigger. */
  lemma EdgeNeedsChange(mode: TriggerMode, edge: TriggerEdge, force: bool, v: real, prev: real, curr: real, level: real)
    ensures mode != Auto ==> !Fires(mode, edge, force, v, v, level)
    ensures !Fires(Single, edge, false, prev, curr, level)
  {
  }

  /** A level below both trigger samples is never crossed: an edge trigger set there never fires. */
  lemma LevelBelowSignal(mode: TriggerMode, edge: TriggerEdge, force: bool, prev: real, curr: real, level: real)
    requires mode != Auto && level < prev && level < curr
    ensures !Fires(mode, edge, force, prev, curr, level)
  {
  }

  // ---------------------------------------------------------------------
  // The tick, as functions of the state
  // ---------------------------------------------------------------------

  /** AquireSampe: one more sample written, and the trigger samples shifted by one. */
  function Acquired(s: Fsm, trigIn: real): Fsm
  {
    s.(dmaWrite := s.dmaWrite + 1, trigSample1 := s.trigSample2, trigSample2 := trigIn)
  }

  /** Redraw: the draw window around the trigger point, drawing restarted from its left end. */
  function Redrawn(s: Fsm): Fsm
  {
    s.(dmaDrawBeg := s.dmaWriteTrggrd - s.numSamplesBeforeTrigger,
       dmaDrawEnd := s.dmaWriteTrggrd + s.numSamplesAfterTrigger,
       dmaDraw := s.dmaWriteTrggrd - s.numSamplesBeforeTrigger)
  }

  /** Redraw puts the draw window around the trigger point and changes nothing else. */
  lemma RedrawnWindow(s: Fsm)
    ensures var r := Redrawn(s);
      && r.dmaDraw == r.dmaDrawBeg == s.dmaWriteTrggrd - s.numSamplesBeforeTrigger
      && r.dmaDrawEnd == s.dmaWriteTrggrd + s.numSamplesAfterTrigger
      && r.dmaDrawEnd - r.dmaDrawBeg == s.numSamplesBeforeTrigger + s.numSamplesAfterTrigger
      && r.(dmaDraw := s.dmaDraw, dmaDrawBeg := s.dmaDrawBeg, dmaDrawEnd := s.dmaDrawEnd) == s
  {
  }

  /** TriggerIt: a sweep starts at the write counter. */
  function TriggeredAt(s: Fsm): Fsm
  {
    Redrawn(s.(forceTrigger := false, dmaWriteTrggrd := s.dmaWrite,
               dmaWriteEnd := s.dmaWrite + s.numSamplesAfterTrigger))
  }

  /**
   * The sweep TriggerIt starts begins at the write counter, ends
   * numSamplesAfterTrigger later and is drawn from numSamplesBeforeTrigger
   * earlier; a pending ForceTrigger is consumed, and the status, the write
   * counter and the trigger samples are left alone.
   */
  lemma TriggeredAtSweep(s: Fsm)
    ensures var r := TriggeredAt(s);
      && r.dmaWriteTrggrd == s.dmaWrite
      && r.dmaWriteEnd == r.dmaDrawEnd == s.dmaWrite + s.numSamplesAfterTrigger
      && r.dmaDraw == r.dmaDrawBeg == s.dmaWrite - s.numSamplesBeforeTrigger
      && !r.forceTrigger
      && r.status == s.status && r.dmaWrite == s.dmaWrite && r.armingSamplesCount == s.armingSamplesCount
      && r.trigSample1 == s.trigSample1 && r.trigSample2 == s.trigSample2
      && r.numSamplesBeforeTrigger == s.numSamplesBeforeTrigger
      && r.numSamplesAfterTrigger == s.numSamplesAfterTrigger
  {
  }

  /** ReadTrigger on the state. */
  predicate Fired(s: Fsm, c: Setup)
  {
    Fires(c.mode, c.edge, s.forceTrigger, s.trigSample1, s.trigSample2, c.level)
  }

  /**
   * RenderSamples: sample smpStart is placed so that the sample at the
   * centre offset from the trigger point lands on the texture centre.
   */
  function DrawRequest(s: Fsm, sw: Sweep, smpStart: int, smpEnd: int): Effect
  {
    var smpCenter := s.dmaWriteTrggrd - sw.sampAtCenterRel;
    Draw(smpStart, smpEnd, (smpStart - smpCenter) as real * sw.pixelsPerSample + sw.centerX as real,
         sw.pixelsPerSample)
  }

  /** The screen centre shows the sample sampAtCenterRel before the trigger point, and each sample is one step further right. */
  lemma DrawRequestPlacement(s: Fsm, sw: Sweep, smpStart: int, smpEnd: int)
    ensures DrawRequest(s, sw, s.dmaWriteTrggrd - sw.sampAtCenterRel, smpEnd).pixStart == sw.centerX as real
    ensures DrawRequest(s, sw, smpStart + 1, smpEnd).pixStart ==
            DrawRequest(s, sw, smpStart, smpEnd).pixStart + sw.pixelsPerSample
  {
    var c := s.dmaWriteTrggrd - sw.sampAtCenterRel;
    assert (smpStart + 1 - c) as real * sw.pixelsPerSample ==
           (smpStart - c) as real * sw.pixelsPerSample + sw.pixelsPerSample;
  }

  /** Armed: acquire, and become Ready once more than numSamplesBeforeTrigger samples were armed. */
  function StepArmed(s: Fsm, trigIn: real): (Fsm, seq<Effect>)
  {
    var a := Acquired(s, trigIn);
    var n := a.armingSamplesCount + 1;
    if n > a.numSamplesBeforeTrigger then
      (a.(armingSamplesCount := n, forceTrigger := false, status := Ready), [Acquire(s.dmaWrite)])
    else
      (a.(armingSamplesCount := n), [Acquire(s.dmaWrite)])
  }

  /** Ready: acquire, then trigger if the new pair of samples fires. */
  function StepReady(s: Fsm, c: Setup, trigIn: real): (Fsm, seq<Effect>)
  {
    var a := Acquired(s, trigIn);
    if Fired(a, c) then (TriggeredAt(a).(status := Triggered), [Acquire(s.dmaWrite)])
    else (a, [Acquire(s.dmaWrite)])
  }

  /** Within a sweep: draw the waiting samples once more than SAMPLES_PER_DRAW of them have piled up. */
  function DrawPending(a: Fsm, sw: Sweep): (Fsm, seq<Effect>)
  {
    if a.dmaWrite - a.dmaDraw > SAMPLES_PER_DRAW then
      (a.(dmaDraw := a.dmaWrite - 1), [DrawRequest(a, sw, a.dmaDraw, a.dmaWrite - 1)])
    else
      (a, [])
  }

  /** The end of a triggered sweep, after the final draw: wrap the write counter and go on by mode. */
  function SweepEnded(a: Fsm, c: Setup): Fsm
  {
    var m := a.(dmaDraw := a.dmaWrite - 1, dmaWrite := Settings.Mask(a.dmaWrite));
    match c.mode
    case Auto => m.(dmaDraw := m.dmaWrite, dmaWriteTrggrd := m.dmaWrite, status := AutoRun)
    case Normal => m.(status := Ready)
    case Single => m.(status := Ready)
  }

  /**
   * Triggered: acquire; past the end of the sweep, draw the rest, wrap the
   * write counter into the buffer and go on by mode (Auto keeps sweeping
   * from the wrapped counter, Normal and Single wait for the next edge).
   */
  function StepTriggered(s: Fsm, c: Setup, sw: Sweep, trigIn: real): (Fsm, seq<Effect>)
  {
    var a := Acquired(s, trigIn);
    if a.dmaWrite > a.dmaWriteEnd then
      (SweepEnded(a, c), [Acquire(s.dmaWrite), DrawRequest(a, sw, a.dmaDraw, a.dmaWrite - 1)])
    else
      var d := DrawPending(a, sw);
      (d.0, [Acquire(s.dmaWrite)] + d.1)
  }

  /** The end of an Auto sweep as written: the counter is wrapped first, and the new sweep starts at it. */
  function AutoRestarted(m: Fsm): Fsm
  {
    TriggeredAt(m.(dmaDraw := m.dmaWrite, dmaWriteTrggrd := m.dmaWrite))
  }

  /**
   * Auto, as written: past the end of the sweep the write counter is
   * wrapped BEFORE the final draw, which then starts at the unwrapped draw
   * counter; afterwards the sweep restarts at the wrapped counter.
   */
  function StepAuto(s: Fsm, sw: Sweep, trigIn: real): (Fsm, seq<Effect>)
  {
    var a := Acquired(s, trigIn);
    if a.dmaWrite > a.dmaWriteEnd then
      var m := a.(dmaWrite := Settings.Mask(a.dmaWrite));
      (AutoRestarted(m), [Acquire(s.dmaWrite), DrawRequest(m, sw, m.dmaDraw, m.dmaWrite - 1)])
    else
      var d := DrawPending(a, sw);
      (d.0, [Acquire(s.dmaWrite)] + d.1)
  }

  /** Stop: nothing is acquired; the pre-trigger count drops to zero. */
  function StepStop(s: Fsm): (Fsm, seq<Effect>)
  {
    (s.(numSamplesBeforeTrigger := 0), [])
  }

  /** UpdateTrigger: one tick of the state machine. */
  function Step(s: Fsm, c: Setup, sw: Sweep, trigIn: real): (Fsm, seq<Effect>)
  {
    match s.status
    case Armed => StepArmed(s, trigIn)
    case Ready => StepReady(s, c, trigIn)
    case Triggered => StepTriggered(s, c, sw, trigIn)
    case AutoRun => StepAuto(s, sw, trigIn)
    case Stop => StepStop(s)
  }

  /**
   * Whether a tick marks the configuration and status texts for refresh:
   * on leaving Armed or Ready, at the end of every sweep, and on every
   * Stop tick.
   */
  predicate Marks(s: Fsm, c: Setup, trigIn: real)
  {
    match s.status
    case Armed => s.armingSamplesCount + 1 > s.numSamplesBeforeTrigger
    case Ready => Fired(Acquired(s, trigIn), c)
    case Triggered => s.dmaWrite + 1 > s.dmaWriteEnd
    case AutoRun => s.dmaWrite + 1 > s.dmaWriteEnd
    case Stop => true
  }

  // ---------------------------------------------------------------------
  // Properties of a tick
  // ---------------------------------------------------------------------

  /**
   * Every tick except Stop acquires exactly one sample, at the old write
   * counter, first, and otherwise only draws; the trigger samples shift by
   * one. A Stop tick acquires nothing and leaves the counters alone.
   */
  lemma TickAcquires(s: Fsm, c: Setup, sw: Sweep, trigIn: real)
    ensures var (r, effects) := Step(s, c, sw, trigIn);
      s.status != Stop ==>
        |effects| >= 1 && effects[0] == Acquire(s.dmaWrite) &&
        (forall k :: 1 <= k < |effects| ==> effects[k].Draw?) &&
        r.trigSample1 == s.trigSample2 && r.trigSample2 == trigIn
    ensures var (r, effects) := Step(s, c, sw, trigIn);
      s.status == Stop ==>
        effects == [] && r.status == Stop && r.numSamplesBeforeTrigger == 0 &&
        r.dmaWrite == s.dmaWrite && r.dmaDraw == s.dmaDraw && r.trigSample2 == s.trigSample2
  {
  }

  /** A tick that changes the status marks the texts for refresh. */
  lemma StatusChangeMarks(s: Fsm, c: Setup, sw: Sweep, trigIn: real)
    ensures Step(s, c, sw, trigIn).0.status != s.status ==> Marks(s, c, trigIn)
  {
  }

  /**
   * Armed: the write counter and the arming count go up by one; the state
   * becomes Ready, with ForceTrigger cleared, exactly when the arming count
   * passes numSamplesBeforeTrigger.
   */
  lemma ArmedTick(s: Fsm, c: Setup, sw: Sweep, trigIn: real)
    requires s.status == Armed
    ensures var (r, effects) := Step(s, c, sw, trigIn);
      && effects == [Acquire(s.dmaWrite)]
      && r.dmaWrite == s.dmaWrite + 1
      && r.armingSamplesCount == s.armingSamplesCount + 1
      && (r.status == Ready <==> s.armingSamplesCount + 1 > s.numSamplesBeforeTrigger)
      && (r.status == Ready ==> !r.forceTrigger)
      && (r.status != Ready ==> r.status == Armed && r.forceTrigger == s.forceTrigger)
      && r.dmaDraw == s.dmaDraw && r.dmaWriteEnd == s.dmaWriteEnd
  {
  }

  /** No tick lowers the arming count; nothing but the Armed tick raises it. */
  lemma ArmingCountMonotone(s: Fsm, c: Setup, sw: Sweep, trigIn: real)
    ensures Step(s, c, sw, trigIn).0.armingSamplesCount >= s.armingSamplesCount
    ensures s.status != Armed ==> Step(s, c, sw, trigIn).0.armingSamplesCount == s.armingSamplesCount
  {
  }

  /**
   * Ready: after the acquisition, a firing pair of samples starts a sweep
   * at the new write counter and the state becomes Triggered; otherwise the
   * state stays Ready and only the acquisition happened.
   */
  lemma ReadyTick(s: Fsm, c: Setup, sw: Sweep, trigIn: real)
    requires s.status == Ready
    ensures var (r, effects) := Step(s, c, sw, trigIn);
      && effects == [Acquire(s.dmaWrite)]
      && r.dmaWrite == s.dmaWrite + 1
      && (Fires(c.mode, c.edge, s.forceTrigger, s.trigSample2, trigIn, c.level) ==>
            r.status == Triggered && r.dmaWriteTrggrd == s.dmaWrite + 1 &&
            r.dmaWriteEnd == s.dmaWrite + 1 + s.numSamplesAfterTrigger &&
            r.dmaDraw == s.dmaWrite + 1 - s.numSamplesBeforeTrigger && !r.forceTrigger)
      && (!Fires(c.mode, c.edge, s.forceTrigger, s.trigSample2, trigIn, c.level) ==>
            r == Acquired(s, trigIn))
  {
    TriggeredAtSweep(Acquired(s, trigIn));
  }

  /**
   * Single shot: without ForceTrigger a Single-mode trigger waiting in Ready
   * stays Ready whatever the signal does, and no tick ever sets ForceTrigger.
   */
  lemma SingleNeedsForce(s: Fsm, c: Setup, sw: Sweep, trigIn: real)
    ensures c.mode == Single && !s.forceTrigger && s.status == Ready ==> Step(s, c, sw, trigIn).0.status == Ready
    ensures !s.forceTrigger ==> !Step(s, c, sw, trigIn).0.forceTrigger
  {
  }

  /**
   * Within a sweep (Triggered or Auto, the new write counter not past the
   * end): a draw happens only when more than SAMPLES_PER_DRAW samples wait,
   * it covers every waiting sample, and drawing then resumes at the last
   * sample acquired.
   */
  lemma InSweepTick(s: Fsm, c: Setup, sw: Sweep, trigIn: real)
    requires s.status == Triggered || s.status == AutoRun
    requires s.dmaWrite + 1 <= s.dmaWriteEnd
    ensures var (r, effects) := Step(s, c, sw, trigIn);
      && r.status == s.status && r.dmaWrite == s.dmaWrite + 1 && r.dmaWriteEnd == s.dmaWriteEnd
      && (s.dmaWrite + 1 - s.dmaDraw > SAMPLES_PER_DRAW ==>
            |effects| == 2 && effects[1].Draw? &&
            effects[1].smpStart == s.dmaDraw && effects[1].smpEnd == s.dmaWrite &&
            effects[1].smpStart < effects[1].smpEnd &&
            r.dmaDraw == s.dmaWrite)
      && (s.dmaWrite + 1 - s.dmaDraw <= SAMPLES_PER_DRAW ==> effects == [Acquire(s.dmaWrite)] && r.dmaDraw == s.dmaDraw)
  {
  }

  /**
   * End of a triggered sweep: the rest of the sweep is drawn, the write
   * counter is wrapped into the buffer, and the state goes to Auto in Auto
   * mode (continuing from the wrapped counter, with the old end of sweep)
   * or back to Ready.
   */
  lemma SweepEndTick(s: Fsm, c: Setup, sw: Sweep, trigIn: real)
    requires s.status == Triggered && s.dmaWrite + 1 > s.dmaWriteEnd
    ensures var (r, effects) := Step(s, c, sw, trigIn);
      && 0 <= r.dmaWrite < Settings.BUFFER_SIZE && r.dmaWrite == Settings.Mask(s.dmaWrite + 1)
      && |effects| == 2 && effects[1].Draw?
      && effects[1].smpStart == s.dmaDraw && effects[1].smpEnd == s.dmaWrite
      && r.dmaWriteEnd == s.dmaWriteEnd
      && (c.mode == Auto ==> r.status == AutoRun && r.dmaDraw == r.dmaWrite && r.dmaWriteTrggrd == r.dmaWrite)
      && (c.mode != Auto ==> r.status == Ready && r.dmaDraw == s.dmaWrite)
  {
  }

  /**
   * End of an Auto sweep: the write counter is wrapped into the buffer and a
   * new sweep is triggered in place, at the wrapped counter.
   */
  lemma AutoRestartTick(s: Fsm, c: Setup, sw: Sweep, trigIn: real)
    requires s.status == AutoRun && s.dmaWrite + 1 > s.dmaWriteEnd
    ensures var (r, effects) := Step(s, c, sw, trigIn);
      && 0 <= r.dmaWrite < Settings.BUFFER_SIZE && r.dmaWrite == Settings.Mask(s.dmaWrite + 1)
      && r.status == AutoRun
      && r.dmaWriteTrggrd == r.dmaWrite
      && r.dmaWriteEnd == r.dmaWrite + s.numSamplesAfterTrigger
      && r.dmaDraw == r.dmaWrite - s.numSamplesBeforeTrigger
      && |effects| == 2 && effects[1].Draw?
      && effects[1].smpStart == s.dmaDraw && effects[1].smpEnd == Settings.Mask(s.dmaWrite + 1) - 1
  {
  }

  // ---------------------------------------------------------------------
  // The final draw of an Auto sweep
  // ---------------------------------------------------------------------

  /** Auto, with the final draw made before the write counter is wrapped, as the Triggered state does. */
  function StepAutoDrawn(s: Fsm, sw: Sweep, trigIn: real): (Fsm, seq<Effect>)
  {
    var a := Acquired(s, trigIn);
    if a.dmaWrite > a.dmaWriteEnd then
      var e := DrawRequest(a, sw, a.dmaDraw, a.dmaWrite - 1);
      (AutoRestarted(a.(dmaWrite := Settings.Mask(a.dmaWrite))), [Acquire(s.dmaWrite), e])
    else
      var d := DrawPending(a, sw);
      (d.0, [Acquire(s.dmaWrite)] + d.1)
  }

  /**
   * With the draw made first, the end of an Auto sweep draws exactly the
   * samples waiting since the last draw, up to the last one acquired, and
   * otherwise behaves as the Auto tick.
   */
  lemma AutoWrapDrawsTail(s: Fsm, sw: Sweep, trigIn: real)
    requires s.status == AutoRun && s.dmaWrite + 1 > s.dmaWriteEnd
    ensures var (r, effects) := StepAutoDrawn(s, sw, trigIn);
      && |effects| == 2
      && effects[1] == DrawRequest(s, sw, s.dmaDraw, s.dmaWrite)
      && r == StepAuto(s, sw, trigIn).0
  {
  }

  /**
   * As written, a sweep that crosses sample 1024 ends with an empty draw:
   * with samples 1027..1030 waiting and the sweep ending at 1030, the final
   * draw asks for samples 1027..6, while the corrected tick draws 1027..1030.
   */
  lemma AutoWrapDropsTail(s: Fsm, sw: Sweep, trigIn: real)
    requires s.status == AutoRun && s.dmaDraw == 1027 && s.dmaWrite == 1030 && s.dmaWriteEnd == 1030
    ensures |StepAuto(s, sw, trigIn).1| == 2 && |StepAutoDrawn(s, sw, trigIn).1| == 2
    ensures StepAuto(s, sw, trigIn).1[1].smpStart == 1027 && StepAuto(s, sw, trigIn).1[1].smpEnd == 6
    ensures StepAutoDrawn(s, sw, trigIn).1[1].smpStart == 1027 && StepAutoDrawn(s, sw, trigIn).1[1].smpEnd == 1030
  {
    assert Settings.Mask(1031) == 7 by {
      assert 1031 == 1 * Settings.BUFFER_SIZE + 7;
    }
  }

  // ---------------------------------------------------------------------
  // Entering a mode
  // ---------------------------------------------------------------------

  /** SetMode on the state: Auto triggers at once and runs free; Normal and Single re-arm. */
  function EnterMode(s: Fsm, m: TriggerMode): Fsm
  {
    match m
    case Auto => TriggeredAt(s).(status := AutoRun)
    case Normal => s.(status := Armed)
    case Single => s.(status := Armed)
  }

  /** Entering Auto starts a sweep at the write counter and runs free; entering Normal or Single only re-arms. */
  lemma EnterModeStatus(s: Fsm, m: TriggerMode)
    ensures var r := EnterMode(s, m);
      && (m == Auto ==> r.status == AutoRun && r.dmaWriteTrggrd == s.dmaWrite && !r.forceTrigger)
      && (m == Auto ==> r.dmaDraw == s.dmaWrite - s.numSamplesBeforeTrigger)
      && (m == Auto ==> r.dmaWriteEnd == s.dmaWrite + s.numSamplesAfterTrigger)
      && (m != Auto ==> r == s.(status := Armed))
  {
  }

  /**
   * After SetMode(Single) a trigger needs ForceTrigger: the mode is armed,
   * and a Ready tick without a pending ForceTrigger does not fire.
   */
  lemma SingleModeWaitsForForce(s: Fsm, c: Setup, sw: Sweep, trigIn: real)
    requires c.mode == Single
    ensures EnterMode(s, Single).status == Armed
    ensures Step(EnterMode(s, Single).(status := Ready, forceTrigger := false), c, sw, trigIn).0.status == Ready
  {
  }

  /** Pausing makes the next tick acquire nothing; resuming makes it an arming tick. */
  lemma PauseStopsAcquisition(s: Fsm, c: Setup, sw: Sweep, trigIn: real)
    ensures Step(s.(status := Stop), c, sw, trigIn).1 == []
    ensures Step(s.(status := Armed), c, sw, trigIn).1 == [Acquire(s.dmaWrite)]
  {
  }

  // ---------------------------------------------------------------------
  // Horizontal geometry
  // ---------------------------------------------------------------------

  /** The entries of OscValue.Time, seconds per division, in descending order. */
  function TimeTable(): (t: seq<real>)
    ensures |t| == 24 && Quantizer.Positive(t) && Quantizer.StrictlyDescending(t)
  {
    Quantizer.TimeTableShape();
    Quantizer.TIME.availableGains
  }

  /** The time-scale step: `delta` entries away from the nearest entry, saturating at both ends. */
  function TimeStep(sd: real, delta: int): (r: real)
    ensures r in TimeTable() && r > 0.0
  {
    var t := TimeTable();
    t[ClampIndex(Quantizer.NearestIndex(t, sd) + delta, |t|)]
  }

  /** Stepping towards larger indices never lengthens a time scale of the table; stepping back never shortens it. */
  lemma TimeStepMonotone(sd: real)
    requires sd in TimeTable()
    ensures TimeStep(sd, 1) <= sd && TimeStep(sd, -1) >= sd
  {
    Quantizer.MemberSnapsToItself(TimeTable(), sd);
  }

  /** A time scale already in the table is in range of the scan and snaps to itself. */
  lemma TimeSnapOfMember(value: real)
    requires value in TimeTable()
    ensures Quantizer.Reaches(TimeTable(), value)
    ensures Quantizer.NearestEntry(TimeTable(), value) == value
  {
    Quantizer.MemberSnapsToItself(TimeTable(), value);
  }

  /** The largest horizontal position that keeps the screen inside half the ring buffer. */
  function MaxPosition(sampPerScreen: real, divsPerSample: real): real
  {
    (Settings.BUFFER_HALF_SIZE as real - sampPerScreen / 2.0) * divsPerSample
  }

  /** a <= b and c > 0 give a * c <= b * c. */
  lemma MulMonotoneReal(a: real, b: real, c: real)
    requires a <= b && c > 0.0
    ensures a * c <= b * c
  {
  }

  /** What SetPosition computes: the clamped position, the centre offset in samples and the pre- and post-trigger counts. */
  datatype Placement = Placement(position: real, sampAtCenterRel: int, numSamplesBeforeTrigger: int, numSamplesAfterTrigger: int)

  /**
   * SetPosition's computation: the position is clamped to the largest one
   * that keeps the screen within half the buffer, the centre offset is the
   * rounded position in samples, and the screen's half width (truncated)
   * is split around the trigger point by that offset.
   */
  function Place(value: real, sampPerScreen: real, sampPerDivision: real, divsPerSample: real): Placement
  {
    var halfScreen := sampPerScreen / 2.0;
    var maxPosition := MaxPosition(sampPerScreen, divsPerSample);
    var position := ClampReal(value, -maxPosition, maxPosition);
    var sac := RoundToInt(position * sampPerDivision);
    Placement(position, sac, RoundToInt((Trunc(halfScreen) + sac) as real), RoundToInt((Trunc(halfScreen) - sac) as real))
  }

  /**
   * The counts are the truncated half screen plus and minus the centre
   * offset, so together they always span twice the half screen, and a
   * larger centre offset moves samples from after the trigger to before it.
   */
  lemma PlaceCounts(value: real, sampPerScreen: real, sampPerDivision: real, divsPerSample: real)
    ensures var p := Place(value, sampPerScreen, sampPerDivision, divsPerSample);
      && p.numSamplesBeforeTrigger == Trunc(sampPerScreen / 2.0) + p.sampAtCenterRel
      && p.numSamplesAfterTrigger == Trunc(sampPerScreen / 2.0) - p.sampAtCenterRel
      && p.numSamplesBeforeTrigger + p.numSamplesAfterTrigger == 2 * Trunc(sampPerScreen / 2.0)
  {
    var p := Place(value, sampPerScreen, sampPerDivision, divsPerSample);
    var half := Trunc(sampPerScreen / 2.0);
    RoundToIntNearest((half + p.sampAtCenterRel) as real, half + p.sampAtCenterRel);
    RoundToIntNearest((half - p.sampAtCenterRel) as real, half - p.sampAtCenterRel);
  }

  /** A position within the clamp bound, scaled to samples, stays within the room the bound was made from. */
  lemma ClampedScaled(value: real, sampPerScreen: real, sampPerDivision: real, divsPerSample: real)
    requires sampPerScreen <= Settings.BUFFER_SIZE as real
    requires sampPerDivision > 0.0 && divsPerSample * sampPerDivision == 1.0
    ensures var room := Settings.BUFFER_HALF_SIZE as real - sampPerScreen / 2.0;
            var maxP := MaxPosition(sampPerScreen, divsPerSample);
            var p := ClampReal(value, -maxP, maxP);
            -room <= p * sampPerDivision <= room
  {
    var room := Settings.BUFFER_HALF_SIZE as real - sampPerScreen / 2.0;
    assert room >= 0.0;
    var maxP := MaxPosition(sampPerScreen, divsPerSample);
    assert maxP == room * divsPerSample;
    assert divsPerSample > 0.0 by {
      if divsPerSample <= 0.0 {
        MulMonotoneReal(divsPerSample, 0.0, sampPerDivision);
        assert false;
      }
    }
    assert maxP >= 0.0 by { MulMonotoneReal(0.0, room, divsPerSample); }
    assert maxP * sampPerDivision == room by {
      assert maxP * sampPerDivision == room * (divsPerSample * sampPerDivision);
    }
    var p := ClampReal(value, -maxP, maxP);
    MulMonotoneReal(p, maxP, sampPerDivision);
    MulMonotoneReal(-maxP, p, sampPerDivision);
    assert (-maxP) * sampPerDivision == -(maxP * sampPerDivision);
  }

  /** The centre offset SetPosition computes is within half a sample of the room the clamp leaves. */
  lemma PlacedWithinRoom(value: real, sampPerScreen: real, sampPerDivision: real, divsPerSample: real)
    requires sampPerDivision > 0.0 && divsPerSample * sampPerDivision == 1.0
    requires 0.0 <= sampPerScreen <= Settings.BUFFER_SIZE as real
    ensures var room := Settings.BUFFER_HALF_SIZE as real - sampPerScreen / 2.0;
            var sac := Place(value, sampPerScreen, sampPerDivision, divsPerSample).sampAtCenterRel;
            -room - 0.5 <= sac as real <= room + 0.5
  {
    var room := Settings.BUFFER_HALF_SIZE as real - sampPerScreen / 2.0;
    var maxP := MaxPosition(sampPerScreen, divsPerSample);
    var x := ClampReal(value, -maxP, maxP) * sampPerDivision;
    ClampedScaled(value, sampPerScreen, sampPerDivision, divsPerSample);
    RoundWithin(x, room);
  }

  /** Rounding moves a value by at most half. */
  lemma RoundWithin(x: real, room: real)
    requires -room <= x <= room
    ensures -room - 0.5 <= RoundToInt(x) as real <= room + 0.5
  {
  }

  /**
   * With the geometry the time-scale setter computes (divsPerSample the
   * reciprocal of sampPerDivision) and at most a buffer's worth of samples
   * on screen, the placement keeps both the pre-trigger and the
   * post-trigger window within half the ring buffer.
   */
  lemma WindowFitsBuffer(value: real, sampPerScreen: real, sampPerDivision: real, divsPerSample: real)
    requires sampPerDivision > 0.0 && divsPerSample * sampPerDivision == 1.0
    requires 0.0 <= sampPerScreen <= Settings.BUFFER_SIZE as real
    ensures var p := Place(value, sampPerScreen, sampPerDivision, divsPerSample);
            && p.numSamplesBeforeTrigger <= Settings.BUFFER_HALF_SIZE
            && p.numSamplesAfterTrigger <= Settings.BUFFER_HALF_SIZE
  {
    PlacedWithinRoom(value, sampPerScreen, sampPerDivision, divsPerSample);
    PlaceCounts(value, sampPerScreen, sampPerDivision, divsPerSample);
    var half := Trunc(sampPerScreen / 2.0);
    assert 0.0 <= half as real <= sampPerScreen / 2.0;
  }

  // ---------------------------------------------------------------------
  // The trigger object
  // ---------------------------------------------------------------------

  class OscTrigger {
    var status: Status
    var level: real
    /** The channel the trigger watches (null until Initialize). */
    var channel: Channel.OscChannel?
    const settings: Settings.OscSettings
    var forceTrigger: bool
    var mode: TriggerMode
    var triggerEdge: TriggerEdge
    var isDirtyConfigText: bool
    var isDirtyStatusText: bool
    var dmaDraw: int
    var dmaDrawBeg: int
    var dmaDrawEnd: int
    var dmaWrite: int
    var dmaWriteTrggrd: int
    var dmaWriteEnd: int
    var trigSample1: real
    var trigSample2: real
    var secondsDivision: real
    var position: real
    var sampPerScreen: real
    var sampPerDivision: real
    var divsPerSample: real
    var timeAtCenterRel: real
    var sampAtCenterRel: int
    var armingSamplesCount: int
    var numSamplesBeforeTrigger: int
    var numSamplesAfterTrigger: int
    var pause: bool

    /** The fields a tick changes. */
    function State(): Fsm
      reads this`status, this`forceTrigger, this`dmaDraw, this`dmaDrawBeg, this`dmaDrawEnd, this`dmaWrite
      reads this`dmaWriteTrggrd, this`dmaWriteEnd, this`trigSample1, this`trigSample2
      reads this`armingSamplesCount, this`numSamplesBeforeTrigger, this`numSamplesAfterTrigger
    {
      Fsm(status, forceTrigger, dmaDraw, dmaDrawBeg, dmaDrawEnd, dmaWrite, dmaWriteTrggrd, dmaWriteEnd,
          trigSample1, trigSample2, armingSamplesCount, numSamplesBeforeTrigger, numSamplesAfterTrigger)
    }

    /** The edge settings. */
    function Edge(): Setup
      reads this`mode, this`triggerEdge, this`level
    {
      Setup(mode, triggerEdge, level)
    }

    /** The geometry RenderSamples reads. */
    function Geometry(): Sweep
      reads this`sampAtCenterRel, this`divsPerSample, settings`pixelsPerDivision, settings`textureCenter
    {
      Sweep(sampAtCenterRel, settings.pixelsPerDivision as real * divsPerSample, settings.textureCenter.x)
    }

    /** The field initialisers: one second per division, everything else zero, false or the first enum value. */
    constructor (oscSettings: Settings.OscSettings)
      ensures settings == oscSettings && channel == null
      ensures State() == Fsm(Armed, false, 0, 0, 0, 0, 0, 0, 0.0, 0.0, 0, 0, 0)
      ensures Edge() == Setup(Auto, Rising, 0.0)
      ensures !isDirtyConfigText && !isDirtyStatusText
      ensures secondsDivision == 1.0 && position == 0.0 && !pause
      ensures sampPerScreen == 0.0 && sampPerDivision == 0.0 && divsPerSample == 0.0
      ensures timeAtCenterRel == 0.0 && sampAtCenterRel == 0
    {
      settings := oscSettings;
      channel := null;
      status, level, forceTrigger, mode, triggerEdge := Armed, 0.0, false, Auto, Rising;
      isDirtyConfigText, isDirtyStatusText := false, false;
      dmaDraw, dmaDrawBeg, dmaDrawEnd := 0, 0, 0;
      dmaWrite, dmaWriteTrggrd, dmaWriteEnd := 0, 0, 0;
      trigSample1, trigSample2 := 0.0, 0.0;
      secondsDivision, position := 1.0, 0.0;
      sampPerScreen, sampPerDivision, divsPerSample, timeAtCenterRel := 0.0, 0.0, 0.0, 0.0;
      sampAtCenterRel, armingSamplesCount := 0, 0;
      numSamplesBeforeTrigger, numSamplesAfterTrigger := 0, 0;
      pause := false;
    }

    /** Initialize: paused, watching the given channel, with both texts written by RenderGUI. */
    method Initialize(oscChannel: Channel.OscChannel)
      modifies this`pause, this`channel, this`mode, this`triggerEdge, this`level
      modifies this`isDirtyConfigText, this`isDirtyStatusText
      ensures pause && channel == oscChannel
      ensures Edge() == Setup(oscChannel.trigMode, oscChannel.trigEdge, oscChannel.trigLevel)
      ensures !isDirtyConfigText && !isDirtyStatusText
    {
      pause := true;
      SetChannel(oscChannel);
      var _, _ := RenderGUI();
    }

    /** SetChannel: watch another channel and take over its trigger settings. */
    method SetChannel(oscChannel: Channel.OscChannel)
      modifies this`channel, this`mode, this`triggerEdge, this`level
      modifies this`isDirtyConfigText, this`isDirtyStatusText
      ensures channel == oscChannel
      ensures Edge() == Setup(oscChannel.trigMode, oscChannel.trigEdge, oscChannel.trigLevel)
      ensures isDirtyConfigText && isDirtyStatusText
    {
      channel := oscChannel;
      OnPlugHandle();
    }

    /** OnPlugHandle: the mode, the edge and the level are re-read from the watched channel. */
    method OnPlugHandle()
      requires channel != null
      modifies this`mode, this`triggerEdge, this`level, this`isDirtyConfigText, this`isDirtyStatusText
      ensures Edge() == Setup(channel.trigMode, channel.trigEdge, channel.trigLevel)
      ensures isDirtyConfigText && isDirtyStatusText
    {
      mode := channel.trigMode;
      triggerEdge := channel.trigEdge;
      level := channel.trigLevel;
      isDirtyConfigText, isDirtyStatusText := true, true;
    }

    /** Redraw: restart drawing at the left end of the window around the trigger point. */
    method Redraw()
      modifies this`dmaDraw, this`dmaDrawBeg, this`dmaDrawEnd
      ensures dmaDrawBeg == dmaWriteTrggrd - numSamplesBeforeTrigger
      ensures dmaDrawEnd == dmaWriteTrggrd + numSamplesAfterTrigger
      ensures dmaDraw == dmaDrawBeg
    {
      dmaDrawBeg := dmaWriteTrggrd - numSamplesBeforeTrigger;
      dmaDrawEnd := dmaWriteTrggrd + numSamplesAfterTrigger;
      dmaDraw := dmaDrawBeg;
    }

    /** RenderSamples: the draw request for samples smpStart..smpEnd; drawing continues from smpEnd. */
    function RenderSamples(smpStart: int, smpEnd: int): (e: Effect)
      reads this, settings
      ensures e.Draw? && e.smpStart == smpStart && e.smpEnd == smpEnd
      ensures e == DrawRequest(State(), Geometry(), smpStart, smpEnd)
    {
      var smpCenter := dmaWriteTrggrd - sampAtCenterRel;
      var pixelsPerSample := settings.pixelsPerDivision as real * divsPerSample;
      var pixStart := (smpStart - smpCenter) as real * pixelsPerSample + settings.textureCenter.x as real;
      Draw(smpStart, smpEnd, pixStart, pixelsPerSample)
    }

    /** AquireSampe: the oscilloscope acquires at the write counter, which moves on; the trigger samples shift. */
    method AquireSampe(trigIn: real) returns (e: Effect)
      modifies this`dmaWrite, this`trigSample1, this`trigSample2
      ensures e == Acquire(old(dmaWrite))
      ensures dmaWrite == old(dmaWrite) + 1
      ensures trigSample1 == old(trigSample2) && trigSample2 == trigIn
    {
      e := Acquire(dmaWrite);
      dmaWrite := dmaWrite + 1;
      trigSample1 := trigSample2;
      trigSample2 := trigIn;
    }

    /** TriggerIt: a new sweep starts at the write counter. */
    method TriggerIt()
      modifies this`forceTrigger, this`dmaWriteTrggrd, this`dmaWriteEnd, this`isDirtyConfigText, this`isDirtyStatusText
      modifies this`dmaDraw, this`dmaDrawBeg, this`dmaDrawEnd
      ensures !forceTrigger && dmaWriteTrggrd == dmaWrite && dmaWriteEnd == dmaWrite + numSamplesAfterTrigger
      ensures dmaDraw == dmaDrawBeg == dmaWrite - numSamplesBeforeTrigger && dmaDrawEnd == dmaWrite + numSamplesAfterTrigger
      ensures isDirtyConfigText && isDirtyStatusText
    {
      forceTrigger := false;
      dmaWriteTrggrd := dmaWrite;
      dmaWriteEnd := dmaWrite + numSamplesAfterTrigger;
      isDirtyConfigText, isDirtyStatusText := true, true;
      Redraw();
    }

    /** ReadTrigger: does the last pair of trigger samples fire in the current mode? */
    predicate ReadTrigger()
      reads this
    {
      Fires(mode, triggerEdge, forceTrigger, trigSample1, trigSample2, level)
    }

    /** The dirty flags after a tick: set when the tick marks them, otherwise as they were. */
    twostate predicate MarkedBy(s: Fsm, c: Setup, trigIn: real)
      reads this
    {
      && isDirtyConfigText == (old(isDirtyConfigText) || Marks(s, c, trigIn))
      && isDirtyStatusText == (old(isDirtyStatusText) || Marks(s, c, trigIn))
    }

    /**
     * UpdateTrigger: one tick, then RenderGUI; the effects are the
     * oscilloscope calls the tick makes, in order, and the two flags say
     * whether RenderGUI rewrote the configuration and the status text.
     */
    method UpdateTrigger(trigIn: real) returns (effects: seq<Effect>, configRewritten: bool, statusRewritten: bool)
      modifies this`status, this`forceTrigger, this`dmaDraw, this`dmaDrawBeg, this`dmaDrawEnd, this`dmaWrite
      modifies this`dmaWriteTrggrd, this`dmaWriteEnd, this`trigSample1, this`trigSample2
      modifies this`armingSamplesCount, this`numSamplesBeforeTrigger, this`isDirtyConfigText, this`isDirtyStatusText
      ensures (State(), effects) == Step(old(State()), Edge(), Geometry(), trigIn)
      ensures configRewritten == (old(isDirtyConfigText) || Marks(old(State()), Edge(), trigIn))
      ensures statusRewritten == (old(isDirtyStatusText) || Marks(old(State()), Edge(), trigIn))
      ensures !isDirtyConfigText && !isDirtyStatusText
    {
      effects := Tick(trigIn);
      configRewritten, statusRewritten := RenderGUI();
    }

    /** The state machine part of UpdateTrigger: the branch of the current status. */
    method Tick(trigIn: real) returns (effects: seq<Effect>)
      modifies this`status, this`forceTrigger, this`dmaDraw, this`dmaDrawBeg, this`dmaDrawEnd, this`dmaWrite
      modifies this`dmaWriteTrggrd, this`dmaWriteEnd, this`trigSample1, this`trigSample2
      modifies this`armingSamplesCount, this`numSamplesBeforeTrigger, this`isDirtyConfigText, this`isDirtyStatusText
      ensures (State(), effects) == Step(old(State()), Edge(), Geometry(), trigIn)
      ensures MarkedBy(old(State()), Edge(), trigIn)
    {
      match status
      case Armed => effects := TickArmed(trigIn);
      case Ready => effects := TickReady(trigIn);
      case Triggered => effects := TickTriggered(trigIn);
      case AutoRun => effects := TickAuto(trigIn);
      case Stop => effects := TickStop();
    }

    /**
     * RenderGUI: the configuration and the status text are rewritten when
     * marked dirty, and both marks are cleared. The texts, the status icons
     * and the time labels themselves are not modelled.
     */
    method RenderGUI() returns (configRewritten: bool, statusRewritten: bool)
      modifies this`isDirtyConfigText, this`isDirtyStatusText
      ensures configRewritten == old(isDirtyConfigText) && statusRewritten == old(isDirtyStatusText)
      ensures !isDirtyConfigText && !isDirtyStatusText
    {
      configRewritten, statusRewritten := isDirtyConfigText, isDirtyStatusText;
      isDirtyConfigText, isDirtyStatusText := false, false;
    }

    method TickArmed(trigIn: real) returns (effects: seq<Effect>)
      requires status == Armed
      modifies this`status, this`forceTrigger, this`dmaWrite, this`trigSample1, this`trigSample2
      modifies this`armingSamplesCount, this`isDirtyConfigText, this`isDirtyStatusText
      ensures (State(), effects) == StepArmed(old(State()), trigIn)
      ensures MarkedBy(old(State()), Edge(), trigIn)
    {
      var e := AquireSampe(trigIn);
      effects := [e];
      CountArming();
    }

    /** The arming count of the Armed tick: once past numSamplesBeforeTrigger the trigger is Ready. */
    method CountArming()
      modifies this`armingSamplesCount, this`forceTrigger, this`status, this`isDirtyConfigText, this`isDirtyStatusText
      ensures armingSamplesCount == old(armingSamplesCount) + 1
      ensures var ready := armingSamplesCount > numSamplesBeforeTrigger;
        && status == (if ready then Ready else old(status))
        && forceTrigger == (!ready && old(forceTrigger))
        && isDirtyConfigText == (old(isDirtyConfigText) || ready)
        && isDirtyStatusText == (old(isDirtyStatusText) || ready)
    {
      armingSamplesCount := armingSamplesCount + 1;
      if armingSamplesCount > numSamplesBeforeTrigger {
        forceTrigger := false;
        status := Ready;
        isDirtyConfigText, isDirtyStatusText := true, true;
      }
    }

    method TickReady(trigIn: real) returns (effects: seq<Effect>)
      requires status == Ready
      modifies this`status, this`forceTrigger, this`dmaDraw, this`dmaDrawBeg, this`dmaDrawEnd, this`dmaWrite
      modifies this`dmaWriteTrggrd, this`dmaWriteEnd, this`trigSample1, this`trigSample2
      modifies this`isDirtyConfigText, this`isDirtyStatusText
      ensures (State(), effects) == StepReady(old(State()), Edge(), trigIn)
      ensures MarkedBy(old(State()), Edge(), trigIn)
    {
      var e := AquireSampe(trigIn);
      effects := [e];
      if ReadTrigger() {
        StartSweep(Triggered);
      }
    }

    /** TriggerIt followed by the status the caller moves to. */
    method StartSweep(next: Status)
      modifies this`status, this`forceTrigger, this`dmaWriteTrggrd, this`dmaWriteEnd, this`isDirtyConfigText, this`isDirtyStatusText
      modifies this`dmaDraw, this`dmaDrawBeg, this`dmaDrawEnd
      ensures status == next
      ensures !forceTrigger && dmaWriteTrggrd == dmaWrite && dmaWriteEnd == dmaWrite + numSamplesAfterTrigger
      ensures dmaDraw == dmaDrawBeg == dmaWrite - numSamplesBeforeTrigger && dmaDrawEnd == dmaWrite + numSamplesAfterTrigger
      ensures isDirtyConfigText && isDirtyStatusText
    {
      TriggerIt();
      status := next;
    }

    method TickTriggered(trigIn: real) returns (effects: seq<Effect>)
      requires status == Triggered
      modifies this`status, this`dmaDraw, this`dmaWrite, this`dmaWriteTrggrd, this`trigSample1, this`trigSample2
      modifies this`isDirtyConfigText, this`isDirtyStatusText
      ensures (State(), effects) == StepTriggered(old(State()), Edge(), Geometry(), trigIn)
      ensures MarkedBy(old(State()), Edge(), trigIn)
    {
      var e := AquireSampe(trigIn);
      if dmaWrite > dmaWriteEnd {
        var d := FinishSweep();
        effects := [e, d];
      } else {
        var pending := DrawIfPending();
        effects := [e] + pending;
      }
    }

    /** The end-of-sweep branch of the Triggered tick: the final draw, then the wrap and the next status. */
    method FinishSweep() returns (d: Effect)
      modifies this`status, this`dmaDraw, this`dmaWrite, this`dmaWriteTrggrd
      modifies this`isDirtyConfigText, this`isDirtyStatusText
      ensures State() == SweepEnded(old(State()), Edge())
      ensures d == DrawRequest(old(State()), Geometry(), old(dmaDraw), old(dmaWrite) - 1)
      ensures isDirtyConfigText && isDirtyStatusText
    {
      d := RenderSamples(dmaDraw, dmaWrite - 1);
      EndSweep(d.smpEnd);
    }

    /** The state changes after the Triggered tick's final draw. */
    method EndSweep(drawn: int)
      modifies this`status, this`dmaDraw, this`dmaWrite, this`dmaWriteTrggrd
      modifies this`isDirtyConfigText, this`isDirtyStatusText
      ensures dmaWrite == Settings.Mask(old(dmaWrite))
      ensures status == (if mode == Auto then AutoRun else Ready)
      ensures dmaDraw == (if mode == Auto then dmaWrite else drawn)
      ensures dmaWriteTrggrd == (if mode == Auto then dmaWrite else old(dmaWriteTrggrd))
      ensures isDirtyConfigText && isDirtyStatusText
    {
      dmaDraw := drawn;
      dmaWrite := Settings.Mask(dmaWrite);
      match mode {
        case Auto =>
          dmaDraw := dmaWrite;
          dmaWriteTrggrd := dmaWrite;
          status := AutoRun;
        case Normal =>
          status := Ready;
        case Single =>
          status := Ready;
      }
      isDirtyConfigText, isDirtyStatusText := true, true;
    }

    method TickAuto(trigIn: real) returns (effects: seq<Effect>)
      requires status == AutoRun
      modifies this`forceTrigger, this`dmaDraw, this`dmaDrawBeg, this`dmaDrawEnd, this`dmaWrite
      modifies this`dmaWriteTrggrd, this`dmaWriteEnd, this`trigSample1, this`trigSample2
      modifies this`isDirtyConfigText, this`isDirtyStatusText
      ensures (State(), effects) == StepAuto(old(State()), Geometry(), trigIn)
      ensures MarkedBy(old(State()), Edge(), trigIn)
    {
      var e := AquireSampe(trigIn);
      if dmaWrite > dmaWriteEnd {
        var d := FinishAutoSweep();
        effects := [e, d];
      } else {
        var pending := DrawIfPending();
        effects := [e] + pending;
      }
    }

    /** The end-of-sweep branch of the Auto tick as written: the wrap, then the final draw, then a new sweep. */
    method FinishAutoSweep() returns (d: Effect)
      modifies this`forceTrigger, this`dmaDraw, this`dmaDrawBeg, this`dmaDrawEnd, this`dmaWrite
      modifies this`dmaWriteTrggrd, this`dmaWriteEnd, this`isDirtyConfigText, this`isDirtyStatusText
      ensures var m := old(State()).(dmaWrite := Settings.Mask(old(dmaWrite)));
        State() == AutoRestarted(m) && d == DrawRequest(m, Geometry(), m.dmaDraw, m.dmaWrite - 1)
      ensures isDirtyConfigText && isDirtyStatusText
    {
      WrapWrite();
      d := RenderSamples(dmaDraw, dmaWrite - 1);
      Restart(d.smpEnd);
    }

    /** The write counter wrapped into the buffer (`dmaWrite &= BUFFER_INDEX_MASK`). */
    method WrapWrite()
      modifies this`dmaWrite
      ensures dmaWrite == Settings.Mask(old(dmaWrite))
    {
      dmaWrite := Settings.Mask(dmaWrite);
    }

    /** The state changes after the Auto tick's final draw: a new sweep at the write counter. */
    method Restart(drawn: int)
      modifies this`forceTrigger, this`dmaDraw, this`dmaDrawBeg, this`dmaDrawEnd
      modifies this`dmaWriteTrggrd, this`dmaWriteEnd, this`isDirtyConfigText, this`isDirtyStatusText
      ensures !forceTrigger && dmaWriteTrggrd == dmaWrite && dmaWriteEnd == dmaWrite + numSamplesAfterTrigger
      ensures dmaDraw == dmaDrawBeg == dmaWrite - numSamplesBeforeTrigger && dmaDrawEnd == dmaWrite + numSamplesAfterTrigger
      ensures isDirtyConfigText && isDirtyStatusText
    {
      dmaDraw := drawn;
      dmaDraw := dmaWrite;
      dmaWriteTrggrd := dmaWrite;
      TriggerIt();
    }

    /** The in-sweep branch shared by the Triggered and Auto ticks. */
    method DrawIfPending() returns (effects: seq<Effect>)
      modifies this`dmaDraw
      ensures (State(), effects) == DrawPending(old(State()), Geometry())
    {
      effects := [];
      if dmaWrite - dmaDraw > SAMPLES_PER_DRAW {
        var d := RenderSamples(dmaDraw, dmaWrite - 1);
        effects := [d];
        dmaDraw := d.smpEnd;
      }
    }

    method TickStop() returns (effects: seq<Effect>)
      requires status == Stop
      modifies this`numSamplesBeforeTrigger, this`isDirtyConfigText, this`isDirtyStatusText
      ensures (State(), effects) == StepStop(old(State()))
      ensures isDirtyConfigText && isDirtyStatusText
    {
      isDirtyConfigText, isDirtyStatusText := true, true;
      numSamplesBeforeTrigger := 0;
      effects := [];
    }

    // -------------------------------------------------------------------
    // Settings
    // -------------------------------------------------------------------

    /**
     * SetPosition: the position is clamped so that the screen stays within
     * half the buffer around the trigger point; the centre offset and the
     * pre- and post-trigger counts follow from it, and drawing restarts.
     */
    method SetPosition(value: real)
      modifies this`position, this`sampAtCenterRel, this`timeAtCenterRel
      modifies this`numSamplesBeforeTrigger, this`numSamplesAfterTrigger
      modifies this`isDirtyConfigText, this`isDirtyStatusText, this`dmaDraw, this`dmaDrawBeg, this`dmaDrawEnd
      ensures Placement(position, sampAtCenterRel, numSamplesBeforeTrigger, numSamplesAfterTrigger) ==
              Place(value, sampPerScreen, sampPerDivision, divsPerSample)
      ensures timeAtCenterRel == position * secondsDivision
      ensures dmaDraw == dmaDrawBeg == dmaWriteTrggrd - numSamplesBeforeTrigger
      ensures dmaDrawEnd == dmaWriteTrggrd + numSamplesAfterTrigger
      ensures isDirtyConfigText && isDirtyStatusText
    {
      var p := Place(value, sampPerScreen, sampPerDivision, divsPerSample);
      ApplyPlacement(p);
    }

    /** The assignments of the Position setter, once the placement is computed. */
    method ApplyPlacement(p: Placement)
      modifies this`position, this`sampAtCenterRel, this`timeAtCenterRel
      modifies this`numSamplesBeforeTrigger, this`numSamplesAfterTrigger
      modifies this`isDirtyConfigText, this`isDirtyStatusText, this`dmaDraw, this`dmaDrawBeg, this`dmaDrawEnd
      ensures Placement(position, sampAtCenterRel, numSamplesBeforeTrigger, numSamplesAfterTrigger) == p
      ensures timeAtCenterRel == p.position * secondsDivision
      ensures dmaDraw == dmaDrawBeg == dmaWriteTrggrd - p.numSamplesBeforeTrigger
      ensures dmaDrawEnd == dmaWriteTrggrd + p.numSamplesAfterTrigger
      ensures isDirtyConfigText && isDirtyStatusText
    {
      position, sampAtCenterRel := p.position, p.sampAtCenterRel;
      timeAtCenterRel := position * secondsDivision;
      numSamplesBeforeTrigger, numSamplesAfterTrigger := p.numSamplesBeforeTrigger, p.numSamplesAfterTrigger;
      isDirtyConfigText, isDirtyStatusText := true, true;
      Redraw();
    }

    /**
     * The SecondsDivision setter: the time scale snaps to the time table,
     * the samples per division, per screen and the divisions per sample are
     * recomputed, and the position is applied again under the new scale.
     */
    method SetSecondsDivision(value: real)
      requires Quantizer.Reaches(TimeTable(), value) && settings.timePerSample > 0.0
      modifies this`secondsDivision, this`sampPerDivision, this`sampPerScreen, this`divsPerSample
      modifies this`position, this`sampAtCenterRel, this`timeAtCenterRel
      modifies this`numSamplesBeforeTrigger, this`numSamplesAfterTrigger
      modifies this`isDirtyConfigText, this`isDirtyStatusText, this`dmaDraw, this`dmaDrawBeg, this`dmaDrawEnd
      ensures ScaleIs(Quantizer.NearestEntry(TimeTable(), value))
      ensures value in TimeTable() ==> secondsDivision == value
      ensures Placement(position, sampAtCenterRel, numSamplesBeforeTrigger, numSamplesAfterTrigger) ==
              Place(old(position), sampPerScreen, sampPerDivision, divsPerSample)
      ensures timeAtCenterRel == position * secondsDivision
      ensures dmaDraw == dmaDrawBeg == dmaWriteTrggrd - numSamplesBeforeTrigger
      ensures dmaDrawEnd == dmaWriteTrggrd + numSamplesAfterTrigger
      ensures isDirtyConfigText && isDirtyStatusText
    {
      var v := Quantizer.TIME.GetValue(value);
      if value in TimeTable() {
        TimeSnapOfMember(value);
      }
      SetScale(v);
      SetPosition(position);
    }

    /**
     * The time scale derived from v seconds per division: v / timePerSample
     * samples per division (positive), the screen width in samples, and its
     * reciprocal in divisions per sample.
     */
    predicate ScaleIs(v: real)
      reads this`secondsDivision, this`sampPerDivision, this`sampPerScreen, this`divsPerSample
      reads settings`timePerSample, settings`rectangle
    {
      && secondsDivision == v && settings.timePerSample > 0.0
      && sampPerDivision == v / settings.timePerSample && sampPerDivision > 0.0
      && sampPerScreen == settings.rectangle.width * sampPerDivision
      && divsPerSample == 1.0 / sampPerDivision && divsPerSample * sampPerDivision == 1.0
    }

    /** The time-scale fields the SecondsDivision setter recomputes from a table entry. */
    method SetScale(v: real)
      requires v > 0.0 && settings.timePerSample > 0.0
      modifies this`secondsDivision, this`sampPerDivision, this`sampPerScreen, this`divsPerSample
      ensures ScaleIs(v)
    {
      secondsDivision := v;
      sampPerDivision := secondsDivision / settings.timePerSample;
      sampPerScreen := settings.rectangle.width * sampPerDivision;
      divsPerSample := 1.0 / sampPerDivision;
    }

    /** SecondsDivisionPlus: one entry further down the descending time table. */
    method SecondsDivisionPlus()
      requires settings.timePerSample > 0.0
      modifies this`secondsDivision, this`sampPerDivision, this`sampPerScreen, this`divsPerSample
      modifies this`position, this`sampAtCenterRel, this`timeAtCenterRel
      modifies this`numSamplesBeforeTrigger, this`numSamplesAfterTrigger
      modifies this`isDirtyConfigText, this`isDirtyStatusText, this`dmaDraw, this`dmaDrawBeg, this`dmaDrawEnd
      ensures secondsDivision == TimeStep(old(secondsDivision), 1)
      ensures old(secondsDivision) in TimeTable() ==> secondsDivision <= old(secondsDivision)
      ensures ScaleIs(secondsDivision)
      ensures Placement(position, sampAtCenterRel, numSamplesBeforeTrigger, numSamplesAfterTrigger) ==
              Place(old(position), sampPerScreen, sampPerDivision, divsPerSample)
      ensures timeAtCenterRel == position * secondsDivision
      ensures dmaDraw == dmaDrawBeg == dmaWriteTrggrd - numSamplesBeforeTrigger
      ensures dmaDrawEnd == dmaWriteTrggrd + numSamplesAfterTrigger
      ensures isDirtyConfigText && isDirtyStatusText
    {
      ghost var sd0 := secondsDivision;
      var index := Quantizer.TIME.GetValueIndex(secondsDivision);
      var v := Quantizer.TIME.GetValueByIndex(index + 1);
      TimeSnapOfMember(v);
      if sd0 in TimeTable() {
        TimeStepMonotone(sd0);
      }
      SetSecondsDivision(v);
    }

    /** SecondsDivisionMinus: one entry back up the time table. */
    method SecondsDivisionMinus()
      requires settings.timePerSample > 0.0
      modifies this`secondsDivision, this`sampPerDivision, this`sampPerScreen, this`divsPerSample
      modifies this`position, this`sampAtCenterRel, this`timeAtCenterRel
      modifies this`numSamplesBeforeTrigger, this`numSamplesAfterTrigger
      modifies this`isDirtyConfigText, this`isDirtyStatusText, this`dmaDraw, this`dmaDrawBeg, this`dmaDrawEnd
      ensures secondsDivision == TimeStep(old(secondsDivision), -1)
      ensures old(secondsDivision) in TimeTable() ==> secondsDivision >= old(secondsDivision)
      ensures ScaleIs(secondsDivision)
      ensures Placement(position, sampAtCenterRel, numSamplesBeforeTrigger, numSamplesAfterTrigger) ==
              Place(old(position), sampPerScreen, sampPerDivision, divsPerSample)
      ensures timeAtCenterRel == position * secondsDivision
      ensures dmaDraw == dmaDrawBeg == dmaWriteTrggrd - numSamplesBeforeTrigger
      ensures dmaDrawEnd == dmaWriteTrggrd + numSamplesAfterTrigger
      ensures isDirtyConfigText && isDirtyStatusText
    {
      ghost var sd0 := secondsDivision;
      var index := Quantizer.TIME.GetValueIndex(secondsDivision);
      var v := Quantizer.TIME.GetValueByIndex(index - 1);
      TimeSnapOfMember(v);
      if sd0 in TimeTable() {
        TimeStepMonotone(sd0);
      }
      SetSecondsDivision(v);
    }

    /** The Level setter. */
    method SetLevel(value: real)
      modifies this`level, this`isDirtyConfigText, this`isDirtyStatusText
      ensures level == value && isDirtyConfigText && isDirtyStatusText
    {
      level := value;
      isDirtyStatusText, isDirtyConfigText := true, true;
    }

    /** The Edge setter. */
    method SetEdge(value: TriggerEdge)
      modifies this`triggerEdge, this`isDirtyConfigText, this`isDirtyStatusText
      ensures triggerEdge == value && isDirtyConfigText && isDirtyStatusText
    {
      triggerEdge := value;
      isDirtyStatusText, isDirtyConfigText := true, true;
    }

    /** AutoSetLevel: the level becomes the watched channel's Mid (half its visible peak-to-peak span). */
    method AutoSetLevel()
      requires channel != null
      modifies this`level, this`isDirtyConfigText, this`isDirtyStatusText
      ensures 2.0 * level == channel.minMax.Max() - channel.minMax.Min()
      ensures isDirtyConfigText && isDirtyStatusText
    {
      SetLevel(channel.minMax.Mid());
    }

    /** AutoSetLevel as its documentation describes it: the level halfway between the watched channel's peaks. */
    method AutoSetLevelMidpoint()
      requires channel != null
      modifies this`level, this`isDirtyConfigText, this`isDirtyStatusText
      ensures level == channel.minMax.Midpoint()
      ensures channel.minMax.Min() <= channel.minMax.Max() ==>
                channel.minMax.Min() <= level <= channel.minMax.Max()
      ensures isDirtyConfigText && isDirtyStatusText
    {
      SetLevel(channel.minMax.Midpoint());
    }

    /** SetMode: pauses, stores the mode and enters it. */
    method SetMode(triggerMode: TriggerMode)
      modifies this`pause, this`mode, this`status, this`forceTrigger, this`dmaWriteTrggrd, this`dmaWriteEnd
      modifies this`dmaDraw, this`dmaDrawBeg, this`dmaDrawEnd, this`isDirtyConfigText, this`isDirtyStatusText
      ensures pause && mode == triggerMode
      ensures var r := EnterMode(old(State()), triggerMode);
        && status == r.status && forceTrigger == r.forceTrigger
        && dmaWriteTrggrd == r.dmaWriteTrggrd && dmaWriteEnd == r.dmaWriteEnd
        && dmaDraw == r.dmaDraw && dmaDrawBeg == r.dmaDrawBeg && dmaDrawEnd == r.dmaDrawEnd
      ensures isDirtyConfigText && isDirtyStatusText
    {
      pause := true;
      mode := triggerMode;
      match mode {
        case Auto =>
          StartSweep(AutoRun);
        case Normal =>
          status := Armed;
        case Single =>
          status := Armed;
      }
      isDirtyConfigText, isDirtyStatusText := true, true;
    }

    /** The Pause setter: pausing stops acquisition, resuming re-arms. */
    method SetPause(value: bool)
      modifies this`pause, this`status
      ensures pause == value
      ensures status == (if value then Stop else Armed)
    {
      pause := value;
      status := if pause then Stop else Armed;
    }

    /** ForceTrigger: arms one shot, in Single mode only. */
    method ForceTrigger()
      modifies this`forceTrigger
      ensures forceTrigger == (old(forceTrigger) || mode == Single)
    {
      if mode == Single {
        forceTrigger := true;
      }
    }
  }
}

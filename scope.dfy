// The oscilloscope component: it owns the settings, the renderer, the grid,
// the trigger and the channel array, sets them up once, and fans the
// trigger's calls out to every channel: acquire one sample at the masked
// write address, restart the statistics, and render the samples of a sweep
// segment after clearing the columns they cover.

module Scope {
  import opened Numerics
  import opened OscTypes
  import opened Settings
  import opened Raster
  import Channel
  import MinMax
  import Renderer
  import Grid
  import Trigger
  import GuiManager

  /** The colour id of Color.black, the renderer's background. */
  const BLACK: int := 0

  /** GetChannel's index: the name's number modulo the channel count. */
  function ChannelIndex(name: ChannelName, count: int): (i: int)
    requires count > 0
  {
    name.Ordinal() % count
  }

  /** The index is always a valid one; names within the count map to themselves, later ones wrap around by the count. */
  lemma ChannelIndexWraps(name: ChannelName, count: int)
    requires count > 0
    ensures 0 <= ChannelIndex(name, count) < count
    ensures name.Ordinal() < count ==> ChannelIndex(name, count) == name.Ordinal()
    ensures name.Ordinal() >= count ==> ChannelIndex(name, count) == (name.Ordinal() - count) % count
  {
    var n := name.Ordinal();
    if n < count {
      Grid.ModUnique(n, count, 0, n);
    } else {
      Grid.ModStep(n - count, count);
    }
  }

  /** The parts of a channel that AcquireSample writes: the sample, the DC level and the buffer's contents. */
  datatype Cell = Cell(sample: Vec3, dclevel: Vec3, contents: seq<Vec3>)

  function CellOf(ch: Channel.OscChannel): (c: Cell)
    reads ch, ch.buffer
    ensures c.contents == ch.buffer[..]
  {
    Cell(ch.sample, ch.dclevel, ch.buffer[..])
  }

  /**
   * What Channel.AcquireSample(addr, dt) does to one channel whose sample,
   * DC level and buffer were `was` and whose probe holds `seen` when its
   * turn comes: an unplugged channel keeps them; a plugged one runs its read
   * callback on the probe, which then holds `read`, and stores that sample
   * (minus the running DC level when decoupling) at addr.
   */
  ghost predicate Acquired(ch: Channel.OscChannel, addr: int, dt: real, seen: Vec3, read: Vec3, was: Cell)
    reads ch, ch.buffer
  {
    if !ch.isPlugged then CellOf(ch) == was
    else
      && ch.probe != null && 0 <= addr < |was.contents|
      && read == Channel.ReadIn(ch.readSample, seen)
      && (ch.decoupling ==> ch.dclevel == Lerp(was.dclevel, read, dt) && ch.sample == Sub(read, ch.dclevel))
      && (!ch.decoupling ==> ch.dclevel == was.dclevel && ch.sample == read)
      && ch.buffer[..] == was.contents[addr := ch.sample]
  }

  /**
   * The last index before k whose channel reads probe p: `holders` gives,
   * channel by channel, the probe a plugged channel reads and null for an
   * unplugged one. The result is -1 when no channel before k reads p.
   */
  function LastReader(holders: seq<Channel.OscProbe?>, k: int, p: Channel.OscProbe): (j: int)
    requires 0 <= k <= |holders|
    ensures -1 <= j < k
    ensures j >= 0 ==> holders[j] == p
    ensures forall m :: j < m < k ==> holders[m] != p
    decreases k
  {
    if k == 0 then -1
    else if holders[k - 1] == p then k - 1
    else LastReader(holders, k - 1, p)
  }

  /**
   * The sample probe p holds once channels 0..k-1 have acquired in turn:
   * what the read of the last of them reading p left (`after`), or `start`
   * when none of them reads p.
   */
  function SampleAfter(holders: seq<Channel.OscProbe?>, k: int, p: Channel.OscProbe, start: Vec3, after: seq<Vec3>): Vec3
    requires 0 <= k <= |holders| && k <= |after|
  {
    var j := LastReader(holders, k, p);
    if j < 0 then start else after[j]
  }

  /** One more channel's turn: the probe holds what that channel's read left, when it reads the probe. */
  lemma SampleAfterStep(holders: seq<Channel.OscProbe?>, i: int, p: Channel.OscProbe, start: Vec3, after: seq<Vec3>, a: Vec3)
    requires 0 <= i < |holders| && i == |after|
    ensures SampleAfter(holders, i + 1, p, start, after + [a]) ==
              if holders[i] == p then a else SampleAfter(holders, i, p, start, after)
  {
  }

  /** Reads recorded after turn k do not change what the probes held at turn k. */
  lemma SampleAfterExtend(holders: seq<Channel.OscProbe?>, k: int, p: Channel.OscProbe, start: Vec3, after: seq<Vec3>, a: Vec3)
    requires 0 <= k <= |holders| && k <= |after|
    ensures SampleAfter(holders, k, p, start, after + [a]) == SampleAfter(holders, k, p, start, after)
  {
  }

  /**
   * Every plugged channel among those that took their turn read its probe
   * (holders) as the channels before it left it: seen[k] is what the last
   * earlier reader's read left there (after), or the probe's sample from
   * starts when there was none.
   */
  predicate ReadInTurn(holders: seq<Channel.OscProbe?>, starts: seq<Vec3>, seen: seq<Vec3>, after: seq<Vec3>)
  {
    && |seen| == |after| <= |holders| == |starts|
    && forall k :: 0 <= k < |seen| && holders[k] != null ==> seen[k] == SampleAfter(holders, k, holders[k], starts[k], after)
  }

  /** One more channel reading what the earlier readers of its probe left keeps the reads in turn. */
  lemma ReadInTurnStep(holders: seq<Channel.OscProbe?>, starts: seq<Vec3>, seen: seq<Vec3>, after: seq<Vec3>, s: Vec3, a: Vec3)
    requires ReadInTurn(holders, starts, seen, after) && |seen| < |holders|
    requires holders[|seen|] != null ==> s == SampleAfter(holders, |seen|, holders[|seen|], starts[|seen|], after)
    ensures ReadInTurn(holders, starts, seen + [s], after + [a])
  {
    forall k | 0 <= k < |seen| && holders[k] != null
      ensures (seen + [s])[k] == SampleAfter(holders, k, holders[k], starts[k], after + [a])
    {
      SampleAfterExtend(holders, k, holders[k], starts[k], after, a);
    }
  }

  /** A probe no earlier channel reads still holds its sample from before the acquisition. */
  lemma UnsharedProbeSeesStart(holders: seq<Channel.OscProbe?>, k: int, p: Channel.OscProbe, start: Vec3, after: seq<Vec3>)
    requires 0 <= k <= |holders| && k <= |after|
    requires forall m :: 0 <= m < k ==> holders[m] != p
    ensures SampleAfter(holders, k, p, start, after) == start
  {
  }

  /**
   * Two channels i < j reading the same probe, with no channel between them
   * reading it: channel j's read starts from what channel i's read left.
   */
  lemma {:induction false} SharedProbeReadsInTurn(holders: seq<Channel.OscProbe?>, i: int, j: int, p: Channel.OscProbe,
                                                  start: Vec3, after: seq<Vec3>)
    requires 0 <= i < j <= |holders| && j <= |after| && holders[i] == p
    requires forall m :: i < m < j ==> holders[m] != p
    ensures SampleAfter(holders, j, p, start, after) == after[i]
    decreases j
  {
    if j - 1 > i {
      SharedProbeReadsInTurn(holders, i, j - 1, p, start, after);
    }
  }

  /** The statistics of an OscMinMax at one moment. */
  datatype Stats = Stats(isZero: bool, min: real, max: real, p2p: real)

  function StatsOf(m: MinMax.OscMinMax): Stats
    reads m
  {
    Stats(m.isZero, m.min, m.max, m.p2p)
  }

  /**
   * What OscChannel.Render does to a channel's statistics, from the values
   * `before` and the status-text mark `marked` it had: nothing when
   * unplugged; otherwise min and max folded over samples smpBeg..smpEnd,
   * p2p their difference, and the status text marked when p2p changed.
   */
  ghost predicate Measured(ch: Channel.OscChannel, smpBeg: int, smpEnd: int, before: Stats, marked: bool)
    reads ch, ch.minMax, ch.buffer
    requires ch.buffer.Length == BUFFER_SIZE
  {
    if !ch.isPlugged then StatsOf(ch.minMax) == before && ch.isDirtyStatusText == marked
    else
      && ch.minMax.min == MinMax.ScanMin(ch.buffer[..], smpBeg, smpEnd, ch.format, before.min)
      && ch.minMax.max == MinMax.ScanMax(ch.buffer[..], smpBeg, smpEnd, ch.format, before.max)
      && ch.minMax.p2p == ch.minMax.max - ch.minMax.min && !ch.minMax.isZero
      && ch.isDirtyStatusText == (marked || ch.minMax.p2p != before.p2p)
  }

  /** A channel's statistics and status-text mark at one moment, from which Render measures. */
  datatype Tally = Tally(stats: Stats, marked: bool)

  function TallyOf(ch: Channel.OscChannel): Tally
    reads ch`isDirtyStatusText, ch.minMax
  {
    Tally(StatsOf(ch.minMax), ch.isDirtyStatusText)
  }

  /** Channel.OnTrigger's effect on the statistics: zero flag set, min and max back to their start values, peak-to-peak kept. */
  twostate predicate Restarted(m: MinMax.OscMinMax)
    reads m
  {
    m.isZero && m.min == FLOAT_MAX && m.max == 0.0 && m.p2p == old(m.p2p)
  }

  /** Channel.OnPlugHandle's effect: the channel mirrors its (unchanged) probe again, with both texts marked and zero samples. */
  twostate predicate Replugged(ch: Channel.OscChannel)
    reads ch, ch.probe
  {
    && ch.probe == old(ch.probe) && ch.buffer == old(ch.buffer) && ch.probe != null
    && ch.Mirrors(ch.probe) && ch.isDirtyConfigText && ch.isDirtyStatusText
    && ch.sample == ZERO && ch.dclevel == ZERO
  }

  /** The pixel column at which a sweep of samples smpStart..smpEnd drawn from pixStart ends. */
  function EndPixel(smpStart: int, smpEnd: int, pixStart: real, pixPerSample: real): int
  {
    RoundToInt(pixStart + (smpEnd - smpStart) as real * pixPerSample)
  }

  /** The strokes and text stamps of the channels rendered one after another, in order. */
  function ChannelsStrokes(r: Renderer.OscRenderer, chs: seq<Channel.OscChannel>, smpBeg: int, smpEnd: int,
                           pixStart: real, pixPerSample: real): (s: (seq<Stroke>, seq<Renderer.Stamp>))
    reads r, r.settings, set ch | ch in chs :: ch.buffer
    reads (set ch | ch in chs :: ch)`isPlugged, (set ch | ch in chs :: ch)`style, (set ch | ch in chs :: ch)`format
    reads (set ch | ch in chs :: ch)`buffer, (set ch | ch in chs :: ch)`scale, (set ch | ch in chs :: ch)`position
    requires r.settings != null && forall ch :: ch in chs ==> ch.buffer.Length == BUFFER_SIZE
    ensures (forall ch :: ch in chs ==> !ch.isPlugged) ==> s == ([], [])
    decreases |chs|
  {
    if chs == [] then ([], [])
    else
      var init, last := chs[..|chs| - 1], chs[|chs| - 1];
      assert forall ch :: ch in init ==> ch in chs;
      assert (set ch | ch in init :: ch) <= (set ch | ch in chs :: ch);
      assert last in chs;
      assert last in (set ch | ch in chs :: ch) && last.buffer in (set ch | ch in chs :: ch.buffer);
      var a := ChannelsStrokes(r, init, smpBeg, smpEnd, pixStart, pixPerSample);
      var b := Renderer.ChannelStrokes(r, last, smpBeg, smpEnd, pixStart, pixPerSample);
      (a.0 + b.0, a.1 + b.1)
  }

  /** Rendering one more channel appends its strokes and stamps to those of the channels before it. */
  lemma ChannelsStrokesSnoc(r: Renderer.OscRenderer, chs: seq<Channel.OscChannel>, i: int, smpBeg: int, smpEnd: int,
                            pixStart: real, pixPerSample: real, tex: array2<int>, base: seq<seq<int>>, done: seq<Stroke>,
                            sofar: (seq<Stroke>, seq<Renderer.Stamp>), mine: (seq<Stroke>, seq<Renderer.Stamp>))
    requires 0 <= i < |chs| && r.settings != null && forall ch :: ch in chs ==> ch.buffer.Length == BUFFER_SIZE
    requires sofar == ChannelsStrokes(r, chs[..i], smpBeg, smpEnd, pixStart, pixPerSample)
    requires mine == Renderer.ChannelStrokes(r, chs[i], smpBeg, smpEnd, pixStart, pixPerSample)
    requires PaintedOver(tex, base, done + sofar.0 + mine.0)
    ensures var s := ChannelsStrokes(r, chs[..i + 1], smpBeg, smpEnd, pixStart, pixPerSample);
            PaintedOver(tex, base, done + s.0) && s.1 == sofar.1 + mine.1
  {
    assert chs[..i + 1][..i] == chs[..i];
    assert done + sofar.0 + mine.0 == done + (sofar.0 + mine.0);
  }

  class Oscilloscope {
    const settings: OscSettings
    const renderer: Renderer.OscRenderer
    const grid: Grid.OscGrid
    const trigger: Trigger.OscTrigger
    const gui: GuiManager.OscGuiManager
    const channels: array<Channel.OscChannel>
    /** OscProbe.Null, the probe every channel starts with. */
    const nullProbe: Channel.OscProbe
    var bgColorForRenderer: int
    var isInitialized: bool

    /** The component with its parts wired in the scene, before Awake. */
    constructor (settings: OscSettings, renderer: Renderer.OscRenderer, grid: Grid.OscGrid,
                 trigger: Trigger.OscTrigger, gui: GuiManager.OscGuiManager,
                 channels: array<Channel.OscChannel>, nullProbe: Channel.OscProbe)
      ensures this.settings == settings && this.renderer == renderer && this.grid == grid
      ensures this.trigger == trigger && this.gui == gui && this.channels == channels && this.nullProbe == nullProbe
      ensures !isInitialized
    {
      this.settings, this.renderer, this.grid := settings, renderer, grid;
      this.trigger, this.gui, this.channels, this.nullProbe := trigger, gui, channels, nullProbe;
      bgColorForRenderer := 0;
      isInitialized := false;
    }

    /** The channels are distinct objects with statistics of their own. */
    ghost predicate Separate()
      reads this, channels
    {
      && (forall i, j :: 0 <= i < j < channels.Length ==> channels[i] != channels[j])
      && (forall i, j :: 0 <= i < j < channels.Length ==> channels[i].minMax != channels[j].minMax)
    }

    /**
     * The channel array as the oscilloscope relies on it: distinct channels
     * with their own buffers and statistics, every plugged channel holding a
     * probe and a full-size buffer. Channels may share a probe: Plug only
     * unplugs a probe from the channel in its Gui field, which nothing sets.
     */
    ghost predicate Wired()
      reads this, channels
      reads (set k | 0 <= k < channels.Length :: channels[k])`isPlugged
      reads (set k | 0 <= k < channels.Length :: channels[k])`probe
      reads (set k | 0 <= k < channels.Length :: channels[k])`buffer
    {
      && channels.Length > 0
      && Separate()
      && (forall i, j :: 0 <= i < j < channels.Length ==> channels[i].buffer != channels[j].buffer)
      && (forall i :: 0 <= i < channels.Length && channels[i].isPlugged ==>
            channels[i].probe != null && channels[i].buffer.Length == BUFFER_SIZE)
    }

    /** The probe each of channels 0..n-1 reads: its probe when plugged, null when not. */
    ghost function Readers(n: int): (h: seq<Channel.OscProbe?>)
      reads this, channels
      reads (set k | 0 <= k < channels.Length :: channels[k])`isPlugged
      reads (set k | 0 <= k < channels.Length :: channels[k])`probe
      requires 0 <= n <= channels.Length
      ensures |h| == n
      ensures forall k :: 0 <= k < n ==> h[k] == if channels[k].isPlugged then channels[k].probe else null
      decreases n
    {
      if n == 0 then [] else Readers(n - 1) + [if channels[n - 1].isPlugged then channels[n - 1].probe else null]
    }

    /** The four channels Initialize sets up are four distinct objects. */
    ghost predicate FourChannels()
      reads this, channels
    {
      channels.Length >= 4
      && channels[0] != channels[1] && channels[0] != channels[2] && channels[0] != channels[3]
      && channels[1] != channels[2] && channels[1] != channels[3] && channels[2] != channels[3]
    }

    /** A channel as Initialize leaves it: the null probe, unplugged, with an empty full-size buffer. */
    ghost predicate Fresh(ch: Channel.OscChannel)
      reads ch, nullProbe
    {
      ch.probe == nullProbe && !ch.isPlugged && ch.buffer.Length == BUFFER_SIZE
    }

    /**
     * Initialize (run from Awake): once only. The settings take the fixed
     * time step, the grid and the renderer take the settings, the renderer's
     * texture is cleared to black, channels 0..3 get the null probe and a
     * full-size buffer (channel 0 twice), the trigger watches channel 1 and
     * the GUI selects the first channel. A second call changes nothing.
     * The GUI is handed this oscilloscope, so it counts the same channels
     * and its digit keys wrap as GetChannel does.
     */
    method Initialize(fixedDeltaTime: real)
      requires FourChannels()
      requires nullProbe.isNull && nullProbe.Valid() && nullProbe.gui == null
      requires settings.subdivisions != 0
      requires settings.pixelsPerDivision >= 1 && settings.divisionsX >= 1 && settings.divisionsY >= 1
      requires gui.channelCount == channels.Length && gui.selected.None? && gui.channelLeds == {}
      modifies this`isInitialized, this`bgColorForRenderer, settings, grid, renderer, renderer.screenTexture
      modifies channels[0], channels[1], channels[2], channels[3], trigger, gui
      ensures old(isInitialized) ==> unchanged(this) && unchanged(settings, grid, renderer, trigger, gui)
      ensures old(isInitialized) ==> unchanged(channels[0], channels[1], channels[2], channels[3])
      ensures isInitialized
      ensures !old(isInitialized) ==>
                && settings.timePerSample == fixedDeltaTime && bgColorForRenderer == BLACK
                && grid.settings == settings && grid.redraw
                && renderer.settings == settings && renderer.Ready()
                && renderer.screenTexture.Length0 == settings.textureSize.x
                && renderer.screenTexture.Length1 == settings.textureSize.y
                && Fresh(channels[0]) && Fresh(channels[1]) && Fresh(channels[2]) && Fresh(channels[3])
                && trigger.channel == channels[1] && trigger.pause
                && gui.Valid() && gui.selected == Some(0)
    {
      if isInitialized {
        return;
      }
      isInitialized := true;
      SetUpScreen(fixedDeltaTime);
      SetUpChannels();
      trigger.Initialize(channels[1]);
      gui.Initialize();
    }

    /** The first part of Initialize: the settings, the grid, and the renderer with its texture cleared to black. */
    method SetUpScreen(fixedDeltaTime: real)
      requires settings.subdivisions != 0
      requires settings.pixelsPerDivision >= 1 && settings.divisionsX >= 1 && settings.divisionsY >= 1
      modifies this`bgColorForRenderer, settings, grid, renderer, renderer.screenTexture
      ensures settings.timePerSample == fixedDeltaTime && bgColorForRenderer == BLACK
      ensures grid.settings == settings && grid.redraw
      ensures renderer.settings == settings && renderer.Ready()
      ensures renderer.screenTexture.Length0 == settings.textureSize.x
      ensures renderer.screenTexture.Length1 == settings.textureSize.y
    {
      settings.Initialize(fixedDeltaTime);
      grid.Initialize(settings);
      bgColorForRenderer := BLACK;
      renderer.Initialize(settings);
      renderer.Clear(bgColorForRenderer);
    }

    /** The channel part of Initialize: channels 0, 1, 2, 3 and then 0 again. */
    method SetUpChannels()
      requires FourChannels()
      requires nullProbe.isNull && nullProbe.Valid() && nullProbe.gui == null
      modifies channels[0], channels[1], channels[2], channels[3], trigger
      ensures Fresh(channels[0]) && Fresh(channels[1]) && Fresh(channels[2]) && Fresh(channels[3])
      ensures trigger.channel == old(trigger.channel) && trigger.pause == old(trigger.pause)
    {
      InitChannel(0);
      InitChannel(1);
      InitChannel(2);
      InitChannel(3);
      InitChannel(0);
    }

    /** Channel i's Initialize with the null probe and a full-size buffer; the trigger re-reads it when it watches it. */
    method InitChannel(i: int)
      requires 0 <= i < channels.Length && nullProbe.isNull && nullProbe.Valid() && nullProbe.gui == null
      modifies channels[i], trigger
      ensures Fresh(channels[i]) && fresh(channels[i].buffer)
      ensures nullProbe.gui == null
      ensures trigger.channel == old(trigger.channel) && trigger.pause == old(trigger.pause)
    {
      var notify := channels[i].Initialize(nullProbe, BUFFER_SIZE, nullProbe, trigger.channel);
      if notify {
        trigger.OnPlugHandle();
      }
    }

    /** The channels are distinct objects. */
    ghost predicate Distinct()
      reads this, channels
    {
      forall i, j :: 0 <= i < j < channels.Length ==> channels[i] != channels[j]
    }

    /**
     * UpdateChannelSettings: every channel re-reads its probe (OnPlugHandle),
     * and the trigger re-reads the settings of the channel it watches.
     */
    method UpdateChannelSettings()
      requires Distinct()
      requires forall k :: 0 <= k < channels.Length ==> channels[k].probe != null && channels[k].probe.Valid()
      modifies set k | 0 <= k < channels.Length :: channels[k]
      modifies trigger`mode, trigger`triggerEdge, trigger`level, trigger`isDirtyConfigText, trigger`isDirtyStatusText
      ensures forall k :: 0 <= k < channels.Length ==> Replugged(channels[k])
      ensures forall k :: 0 <= k < channels.Length && trigger.channel == channels[k] ==>
                var ch := channels[k]; trigger.Edge() == Trigger.Setup(ch.trigMode, ch.trigEdge, ch.trigLevel)
    {
      var i := 0;
      while i < channels.Length
        invariant 0 <= i <= channels.Length
        invariant forall k :: 0 <= k < i ==> Replugged(channels[k])
        invariant forall k :: i <= k < channels.Length ==> unchanged(channels[k])
        invariant forall k :: 0 <= k < i && trigger.channel == channels[k] ==>
                    var ch := channels[k]; trigger.Edge() == Trigger.Setup(ch.trigMode, ch.trigEdge, ch.trigLevel)
      {
        ReplugChannel(i);
        i := i + 1;
      }
    }

    /** One turn of UpdateChannelSettings: channel i re-reads its probe and, when it is the trigger's channel, the trigger follows. */
    method ReplugChannel(i: int)
      requires 0 <= i < channels.Length && Distinct()
      requires channels[i].probe != null && channels[i].probe.Valid()
      modifies channels[i]
      modifies trigger`mode, trigger`triggerEdge, trigger`level, trigger`isDirtyConfigText, trigger`isDirtyStatusText
      ensures Replugged(channels[i])
      ensures trigger.channel == channels[i] ==>
                var ch := channels[i]; trigger.Edge() == Trigger.Setup(ch.trigMode, ch.trigEdge, ch.trigLevel)
      ensures trigger.channel != channels[i] ==> trigger.Edge() == old(trigger.Edge())
      ensures forall k :: 0 <= k < channels.Length && k != i ==> unchanged(channels[k])
    {
      var notify := channels[i].OnPlugHandle(trigger.channel);
      if notify {
        trigger.OnPlugHandle();
      }
    }

    /** GetChannel: the channel at the name's number modulo the channel count. */
    method GetChannel(name: ChannelName) returns (ch: Channel.OscChannel)
      requires channels.Length > 0
      ensures ch == channels[ChannelIndex(name, channels.Length)]
      ensures name.Ordinal() < channels.Length ==> ch == channels[name.Ordinal()]
    {
      ChannelIndexWraps(name, channels.Length);
      ch := channels[name.Ordinal() % channels.Length];
    }

    /**
     * AquireSampe: every channel, in array order, acquires a sample at the
     * masked write address with the settings' time per sample. A channel
     * reads its probe as the channels before it left it: `seen` is what each
     * channel's probe held at its turn and `after` what its read left there.
     */
    method AquireSampe(dmaWrite: int) returns (ghost seen: seq<Vec3>, ghost after: seq<Vec3>)
      requires Wired()
      modifies (set k | 0 <= k < channels.Length :: channels[k])`sample
      modifies (set k | 0 <= k < channels.Length :: channels[k])`dclevel
      modifies set k | 0 <= k < channels.Length :: channels[k].buffer
      modifies (set k | 0 <= k < channels.Length && channels[k].probe != null :: channels[k].probe)`sample
      ensures AcquiredUpTo(channels.Length, Mask(dmaWrite), settings.timePerSample, old(Cells(channels.Length)), seen, after)
      ensures ReadInTurn(old(Readers(channels.Length)), old(Samples(channels.Length)), seen, after)
      ensures ProbesAt(old(Readers(channels.Length)), old(Samples(channels.Length)), channels.Length, after)
    {
      NoTurnYet(Mask(dmaWrite), settings.timePerSample);
      seen, after := AcquireAll(Mask(dmaWrite), settings.timePerSample,
                                Cells(channels.Length), Readers(channels.Length), Samples(channels.Length));
      assert settings.timePerSample == old(settings.timePerSample);
    }

    /** AquireSampe's loop: the channels take their turns in array order. */
    method AcquireAll(addr: int, dt: real, ghost cells: seq<Cell>, ghost holders: seq<Channel.OscProbe?>, ghost starts: seq<Vec3>)
      returns (ghost seen: seq<Vec3>, ghost after: seq<Vec3>)
      requires Wired() && 0 <= addr < BUFFER_SIZE && HeldBy(holders)
      requires AcquiredUpTo(0, addr, dt, cells, [], []) && UntouchedFrom(0, cells)
      requires ReadInTurn(holders, starts, [], []) && ProbesAt(holders, starts, 0, [])
      modifies (set k | 0 <= k < channels.Length :: channels[k])`sample
      modifies (set k | 0 <= k < channels.Length :: channels[k])`dclevel
      modifies set k | 0 <= k < channels.Length :: channels[k].buffer
      modifies (set k | 0 <= k < channels.Length && channels[k].probe != null :: channels[k].probe)`sample
      ensures AcquiredUpTo(channels.Length, addr, dt, cells, seen, after)
      ensures ReadInTurn(holders, starts, seen, after) && ProbesAt(holders, starts, channels.Length, after)
    {
      seen, after := [], [];
      var i := 0;
      while i < channels.Length
        invariant 0 <= i <= channels.Length
        invariant Wired() && HeldBy(holders)
        invariant AcquiredUpTo(i, addr, dt, cells, seen, after) && UntouchedFrom(i, cells)
        invariant ReadInTurn(holders, starts, seen, after) && ProbesAt(holders, starts, i, after)
      {
        seen, after := AcquireTurn(i, addr, dt, cells, holders, starts, seen, after);
        i := i + 1;
      }
    }

    /** What AcquireSample writes in each of channels 0..n-1. */
    ghost function Cells(n: int): (c: seq<Cell>)
      reads this, channels, set k | 0 <= k < channels.Length :: channels[k]
      reads set k | 0 <= k < channels.Length :: channels[k].buffer
      requires 0 <= n <= channels.Length
      ensures |c| == n
      ensures forall k :: 0 <= k < n ==> c[k] == CellOf(channels[k])
      decreases n
    {
      if n == 0 then [] else Cells(n - 1) + [CellOf(channels[n - 1])]
    }

    /** What the probe of each of channels 0..n-1 holds (zero for a channel without one). */
    ghost function Samples(n: int): (s: seq<Vec3>)
      reads this, channels, (set k | 0 <= k < channels.Length :: channels[k])`probe
      reads (set k | 0 <= k < channels.Length && channels[k].probe != null :: channels[k].probe)`sample
      requires 0 <= n <= channels.Length
      ensures |s| == n
      ensures forall k :: 0 <= k < n && channels[k].probe != null ==> s[k] == channels[k].probe.sample
      decreases n
    {
      if n == 0 then [] else Samples(n - 1) + [if channels[n - 1].probe != null then channels[n - 1].probe.sample else ZERO]
    }

    /** holders names, channel by channel, the probe a plugged channel reads, and null for an unplugged one. */
    ghost predicate HeldBy(holders: seq<Channel.OscProbe?>)
      reads this, channels
      reads (set k | 0 <= k < channels.Length :: channels[k])`isPlugged
      reads (set k | 0 <= k < channels.Length :: channels[k])`probe
    {
      && |holders| == channels.Length
      && forall k :: 0 <= k < channels.Length ==> holders[k] == if channels[k].isPlugged then channels[k].probe else null
    }

    /** Channels 0..i-1 have acquired, each from its cell, with the probe reads seen and after. */
    ghost predicate AcquiredUpTo(i: int, addr: int, dt: real, cells: seq<Cell>, seen: seq<Vec3>, after: seq<Vec3>)
      reads this, channels, set k | 0 <= k < channels.Length :: channels[k]
      reads set k | 0 <= k < channels.Length :: channels[k].buffer
    {
      && 0 <= i <= channels.Length && |cells| == channels.Length && |seen| == |after| == i
      && forall k :: 0 <= k < i ==> Acquired(channels[k], addr, dt, seen[k], after[k], cells[k])
    }

    /** Channels i and after still hold their cells. */
    ghost predicate UntouchedFrom(i: int, cells: seq<Cell>)
      reads this, channels, set k | 0 <= k < channels.Length :: channels[k]
      reads set k | 0 <= k < channels.Length :: channels[k].buffer
    {
      && 0 <= i <= channels.Length && |cells| == channels.Length
      && forall k :: i <= k < channels.Length ==> CellOf(channels[k]) == cells[k]
    }

    /**
     * After channels 0..i-1 took their turns, every channel's probe holds
     * what the last of them reading it left (after), or its sample from
     * starts when none of them reads it.
     */
    ghost predicate ProbesAt(holders: seq<Channel.OscProbe?>, starts: seq<Vec3>, i: int, after: seq<Vec3>)
      reads this, channels, (set k | 0 <= k < channels.Length :: channels[k])`probe
      reads (set k | 0 <= k < channels.Length && channels[k].probe != null :: channels[k].probe)`sample
    {
      && |holders| == |starts| == channels.Length && 0 <= i <= channels.Length && i <= |after|
      && forall k :: 0 <= k < channels.Length && channels[k].probe != null ==>
           channels[k].probe.sample == SampleAfter(holders, i, channels[k].probe, starts[k], after)
    }

    /** Before the first turn nothing has been read and every probe holds its own sample. */
    lemma NoTurnYet(addr: int, dt: real)
      ensures AcquiredUpTo(0, addr, dt, Cells(channels.Length), [], []) && UntouchedFrom(0, Cells(channels.Length))
      ensures HeldBy(Readers(channels.Length)) && ReadInTurn(Readers(channels.Length), Samples(channels.Length), [], [])
      ensures ProbesAt(Readers(channels.Length), Samples(channels.Length), 0, [])
    {
      var holders, starts := Readers(channels.Length), Samples(channels.Length);
      forall k | 0 <= k < channels.Length && channels[k].probe != null
        ensures channels[k].probe.sample == SampleAfter(holders, 0, channels[k].probe, starts[k], [])
      {
      }
    }

    /**
     * Turn i of AquireSampe: channel i acquires from what its probe holds,
     * which is what the channels before it left there, and nothing else
     * changes but that probe's sample.
     */
    method AcquireTurn(i: int, addr: int, dt: real, ghost cells: seq<Cell>, ghost holders: seq<Channel.OscProbe?>,
                       ghost starts: seq<Vec3>, ghost seenIn: seq<Vec3>, ghost afterIn: seq<Vec3>)
      returns (ghost seen: seq<Vec3>, ghost after: seq<Vec3>)
      requires Wired() && 0 <= i < channels.Length && 0 <= addr < BUFFER_SIZE && HeldBy(holders)
      requires AcquiredUpTo(i, addr, dt, cells, seenIn, afterIn) && UntouchedFrom(i, cells)
      requires ReadInTurn(holders, starts, seenIn, afterIn) && ProbesAt(holders, starts, i, afterIn)
      modifies {channels[i]}`sample, {channels[i]}`dclevel, channels[i].buffer
      modifies (if channels[i].probe != null then {channels[i].probe} else {})`sample
      ensures Wired() && HeldBy(holders)
      ensures AcquiredUpTo(i + 1, addr, dt, cells, seen, after) && UntouchedFrom(i + 1, cells)
      ensures ReadInTurn(holders, starts, seen, after) && ProbesAt(holders, starts, i + 1, after)
    {
      var s, a := AcquireOne(i, addr, dt);
      seen, after := seenIn + [s], afterIn + [a];
      forall k | 0 <= k < channels.Length && k != i
        ensures unchanged(channels[k]) && unchanged(channels[k].buffer)
      {
        assert channels[k] != channels[i] && channels[k].buffer != channels[i].buffer;
      }
      forall k | 0 <= k < i
        ensures Acquired(channels[k], addr, dt, seen[k], after[k], cells[k])
      {
        assert seen[k] == seenIn[k] && after[k] == afterIn[k];
      }
      ReadInTurnStep(holders, starts, seenIn, afterIn, s, a);
      forall k | 0 <= k < channels.Length && channels[k].probe != null
        ensures channels[k].probe.sample == SampleAfter(holders, i + 1, channels[k].probe, starts[k], after)
      {
        SampleAfterStep(holders, i, channels[k].probe, starts[k], afterIn, a);
      }
    }

    /** OnTrigger: every channel restarts its minimum and maximum. */
    method OnTrigger()
      modifies set k | 0 <= k < channels.Length :: channels[k].minMax
      ensures forall k :: 0 <= k < channels.Length ==> Restarted(channels[k].minMax)
    {
      var i := 0;
      while i < channels.Length
        invariant 0 <= i <= channels.Length
        invariant forall k :: 0 <= k < i ==> Restarted(channels[k].minMax)
        invariant forall k :: i <= k < channels.Length ==> channels[k].minMax.p2p == old(channels[k].minMax.p2p)
      {
        channels[i].OnTrigger();
        i := i + 1;
      }
    }

    /**
     * The frame Render leaves over the texture it found (base): the band of columns from pixStart
     * to the sweep's end cleared, then every channel's strokes in order; the stamps are the channels' texts.
     */
    ghost predicate Drawn(tex: array2<int>, base: seq<seq<int>>, smpStart: int, smpEnd: int, pixStart: real, pixPerSample: real,
                          stamps: seq<Renderer.Stamp>)
      reads this, renderer, renderer.settings, tex, channels
      reads set k | 0 <= k < channels.Length :: channels[k]
      reads set k | 0 <= k < channels.Length :: channels[k].buffer
      requires renderer.settings != null
      requires forall k :: 0 <= k < channels.Length ==> channels[k].buffer.Length == BUFFER_SIZE
    {
      var x1, x2 := RoundToInt(pixStart), EndPixel(smpStart, smpEnd, pixStart, pixPerSample);
      var s := ChannelsStrokes(renderer, channels[..], smpStart, smpEnd, pixStart, pixPerSample);
      && PaintedOver(tex, base, Renderer.ColumnStrokes(x1, x2, tex.Length1, bgColorForRenderer) + s.0)
      && stamps == s.1
    }

    /**
     * Render: clears the columns from the rounded first pixel to the rounded
     * pixel after the last sample, then draws every channel over them in
     * array order; the result is the text stamps of all channels, and every
     * plugged channel has measured the samples drawn.
     */
    method Render(smpStart: int, smpEnd: int, pixStart: real, pixPerSample: real) returns (stamps: seq<Renderer.Stamp>)
      requires renderer.Ready() && Separate()
      requires forall k :: 0 <= k < channels.Length ==> channels[k].buffer.Length == BUFFER_SIZE
      modifies renderer.screenTexture
      modifies (set k | 0 <= k < channels.Length :: channels[k])`isDirtyStatusText
      modifies set k | 0 <= k < channels.Length :: channels[k].minMax
      ensures Drawn(renderer.screenTexture, old(Snapshot(renderer.screenTexture)), smpStart, smpEnd, pixStart, pixPerSample, stamps)
      ensures MeasuredUpTo(channels.Length, smpStart, smpEnd, old(Tallies(channels.Length)))
    {
      var tex := renderer.screenTexture;
      ghost var before := Tallies(channels.Length);
      ghost var base := Snapshot(tex);
      var x1, x2 := RoundToInt(pixStart), EndPixel(smpStart, smpEnd, pixStart, pixPerSample);
      ClearBand(x1, x2, base);
      ghost var cleared := Renderer.ColumnStrokes(x1, x2, tex.Length1, bgColorForRenderer);
      stamps := RenderChannels(smpStart, smpEnd, pixStart, pixPerSample, base, cleared, before);
    }

    /** Render's first step: the renderer clears the band of columns x1..x2 in the background colour over the texture it found. */
    method ClearBand(x1: int, x2: int, ghost base: seq<seq<int>>)
      requires renderer.Ready() && base == Snapshot(renderer.screenTexture)
      modifies renderer.screenTexture
      ensures PaintedOver(renderer.screenTexture, base, Renderer.ColumnStrokes(x1, x2, renderer.screenTexture.Length1, bgColorForRenderer))
      ensures Tallies(channels.Length) == old(Tallies(channels.Length))
    {
      renderer.ClearHorizFrame(x1, x2, bgColorForRenderer);
    }

    /**
     * What the oscilloscope does for one entry of the trigger's effect list:
     * an Acquire is AquireSampe, a Draw is Render.
     */
    method Perform(e: Trigger.Effect) returns (stamps: seq<Renderer.Stamp>, ghost seen: seq<Vec3>, ghost after: seq<Vec3>)
      requires Wired() && renderer.Ready()
      requires forall k :: 0 <= k < channels.Length ==> channels[k].buffer.Length == BUFFER_SIZE
      modifies (if e.Acquire? then set k | 0 <= k < channels.Length :: channels[k] else {})`sample
      modifies (if e.Acquire? then set k | 0 <= k < channels.Length :: channels[k] else {})`dclevel
      modifies if e.Acquire? then set k | 0 <= k < channels.Length :: channels[k].buffer else {}
      modifies (if e.Acquire? then set k | 0 <= k < channels.Length && channels[k].probe != null :: channels[k].probe else {})`sample
      modifies if e.Draw? then set k | 0 <= k < channels.Length :: channels[k].minMax else {}
      modifies if e.Draw? then {renderer.screenTexture} else {}
      modifies (set k | 0 <= k < channels.Length :: channels[k])`isDirtyStatusText
      ensures e.Acquire? ==> stamps == []
      ensures e.Acquire? ==> AcquiredUpTo(channels.Length, Mask(e.dmaWrite), settings.timePerSample, old(Cells(channels.Length)), seen, after)
      ensures e.Acquire? ==> ReadInTurn(old(Readers(channels.Length)), old(Samples(channels.Length)), seen, after)
      ensures e.Acquire? ==> ProbesAt(old(Readers(channels.Length)), old(Samples(channels.Length)), channels.Length, after)
      ensures e.Draw? ==> Drawn(renderer.screenTexture, old(Snapshot(renderer.screenTexture)), e.smpStart, e.smpEnd, e.pixStart, e.pixPerSample, stamps)
      ensures e.Draw? ==> MeasuredUpTo(channels.Length, e.smpStart, e.smpEnd, old(Tallies(channels.Length)))
    {
      if e.Acquire? {
        seen, after := AquireSampe(e.dmaWrite);
        assert settings.timePerSample == old(settings.timePerSample);
        stamps := [];
      } else {
        stamps := Render(e.smpStart, e.smpEnd, e.pixStart, e.pixPerSample);
        seen, after := [], [];
      }
    }

    /** What each of channels 0..n-1 holds as statistics and status-text mark. */
    ghost function Tallies(n: int): (t: seq<Tally>)
      reads this, channels, (set k | 0 <= k < channels.Length :: channels[k])`isDirtyStatusText
      reads set k | 0 <= k < channels.Length :: channels[k].minMax
      requires 0 <= n <= channels.Length
      ensures |t| == n
      ensures forall k :: 0 <= k < n ==> t[k] == TallyOf(channels[k])
      decreases n
    {
      if n == 0 then [] else Tallies(n - 1) + [TallyOf(channels[n - 1])]
    }

    /** Channels 0..i-1 have measured samples smpStart..smpEnd from the tallies they had before Render. */
    ghost predicate MeasuredUpTo(i: int, smpStart: int, smpEnd: int, before: seq<Tally>)
      reads this, channels, set k | 0 <= k < channels.Length :: channels[k]
      reads set k | 0 <= k < channels.Length :: channels[k].minMax
      reads set k | 0 <= k < channels.Length :: channels[k].buffer
    {
      && 0 <= i <= channels.Length && |before| == channels.Length
      && forall k :: 0 <= k < i ==>
           channels[k].buffer.Length == BUFFER_SIZE &&
           Measured(channels[k], smpStart, smpEnd, before[k].stats, before[k].marked)
    }

    /** Channels i.. still hold the tallies they had before Render. */
    ghost predicate TalliedFrom(i: int, before: seq<Tally>)
      reads this, channels, (set k | 0 <= k < channels.Length :: channels[k])`isDirtyStatusText
      reads set k | 0 <= k < channels.Length :: channels[k].minMax
    {
      && 0 <= i <= channels.Length && |before| == channels.Length
      && forall k :: i <= k < channels.Length ==> TallyOf(channels[k]) == before[k]
    }

    /** Render's loop: every channel draws in array order over what is on the texture. */
    method RenderChannels(smpStart: int, smpEnd: int, pixStart: real, pixPerSample: real,
                          ghost base: seq<seq<int>>, ghost done: seq<Stroke>, ghost before: seq<Tally>)
      returns (stamps: seq<Renderer.Stamp>)
      requires renderer.Ready() && Separate()
      requires forall k :: 0 <= k < channels.Length ==> channels[k].buffer.Length == BUFFER_SIZE
      requires PaintedOver(renderer.screenTexture, base, done)
      requires TalliedFrom(0, before)
      modifies renderer.screenTexture
      modifies (set k | 0 <= k < channels.Length :: channels[k])`isDirtyStatusText
      modifies set k | 0 <= k < channels.Length :: channels[k].minMax
      ensures var s := ChannelsStrokes(renderer, channels[..], smpStart, smpEnd, pixStart, pixPerSample);
              PaintedOver(renderer.screenTexture, base, done + s.0) && stamps == s.1
      ensures bgColorForRenderer == old(bgColorForRenderer) && renderer.screenTexture == old(renderer.screenTexture)
      ensures forall k :: 0 <= k < channels.Length ==> channels[k].buffer.Length == BUFFER_SIZE
      ensures MeasuredUpTo(channels.Length, smpStart, smpEnd, before)
    {
      var tex := renderer.screenTexture;
      assert done + [] == done;
      stamps := [];
      var i := 0;
      while i < channels.Length
        invariant 0 <= i <= channels.Length
        invariant forall k :: 0 <= k < channels.Length ==> channels[k].buffer.Length == BUFFER_SIZE
        invariant var s := ChannelsStrokes(renderer, channels[..i], smpStart, smpEnd, pixStart, pixPerSample);
                  PaintedOver(tex, base, done + s.0) && stamps == s.1
        invariant MeasuredUpTo(i, smpStart, smpEnd, before) && TalliedFrom(i, before)
      {
        stamps := RenderTurn(i, tex, smpStart, smpEnd, pixStart, pixPerSample, base, done, stamps, before);
        i := i + 1;
      }
      assert channels[..i] == channels[..];
    }

    /** One turn of Render's loop: channel i draws and measures, and the loop's invariants move on by one channel. */
    method RenderTurn(i: int, tex: array2<int>, smpStart: int, smpEnd: int,
                      pixStart: real, pixPerSample: real, ghost base: seq<seq<int>>, ghost done: seq<Stroke>,
                      stampsIn: seq<Renderer.Stamp>, ghost before: seq<Tally>)
      returns (stamps: seq<Renderer.Stamp>)
      requires 0 <= i < channels.Length && renderer.Ready() && tex == renderer.screenTexture && Separate()
      requires forall k :: 0 <= k < channels.Length ==> channels[k].buffer.Length == BUFFER_SIZE
      requires var s := ChannelsStrokes(renderer, channels[..i], smpStart, smpEnd, pixStart, pixPerSample);
               PaintedOver(tex, base, done + s.0) && stampsIn == s.1
      requires MeasuredUpTo(i, smpStart, smpEnd, before) && TalliedFrom(i, before)
      modifies {channels[i]}`isDirtyStatusText, channels[i].minMax, tex
      ensures forall k :: 0 <= k < channels.Length ==> channels[k].buffer.Length == BUFFER_SIZE
      ensures var s := ChannelsStrokes(renderer, channels[..i + 1], smpStart, smpEnd, pixStart, pixPerSample);
              PaintedOver(tex, base, done + s.0) && stamps == s.1
      ensures MeasuredUpTo(i + 1, smpStart, smpEnd, before) && TalliedFrom(i + 1, before)
    {
      stamps := RenderStep(channels[..], i, tex, smpStart, smpEnd, pixStart, pixPerSample, base, done, stampsIn);
      forall k | 0 <= k < i
        ensures Measured(channels[k], smpStart, smpEnd, before[k].stats, before[k].marked)
      {
        assert old(Measured(channels[k], smpStart, smpEnd, before[k].stats, before[k].marked));
      }
      forall k | i < k < channels.Length
        ensures TallyOf(channels[k]) == before[k]
      {
        assert old(TallyOf(channels[k])) == before[k];
      }
    }

    /** One step of Render's loop: channel i draws over what the channels before it drew, and its stamps follow theirs. */
    method RenderStep(chs: seq<Channel.OscChannel>, i: int, tex: array2<int>, smpStart: int, smpEnd: int,
                      pixStart: real, pixPerSample: real, ghost base: seq<seq<int>>, ghost done: seq<Stroke>,
                      stampsIn: seq<Renderer.Stamp>)
      returns (stamps: seq<Renderer.Stamp>)
      requires 0 <= i < |chs| && renderer.Ready() && tex == renderer.screenTexture
      requires forall ch :: ch in chs ==> ch.buffer.Length == BUFFER_SIZE
      requires forall k :: 0 <= k < |chs| && k != i ==> chs[k] != chs[i] && chs[k].minMax != chs[i].minMax
      requires var s := ChannelsStrokes(renderer, chs[..i], smpStart, smpEnd, pixStart, pixPerSample);
               PaintedOver(tex, base, done + s.0) && stampsIn == s.1
      modifies {chs[i]}`isDirtyStatusText, chs[i].minMax, tex
      ensures var s := ChannelsStrokes(renderer, chs[..i + 1], smpStart, smpEnd, pixStart, pixPerSample);
              PaintedOver(tex, base, done + s.0) && stamps == s.1
      ensures Measured(chs[i], smpStart, smpEnd, old(StatsOf(chs[i].minMax)), old(chs[i].isDirtyStatusText))
      ensures forall k :: 0 <= k < |chs| && k != i ==> unchanged(chs[k]) && unchanged(chs[k].minMax)
    {
      ghost var sofar := ChannelsStrokes(renderer, chs[..i], smpStart, smpEnd, pixStart, pixPerSample);
      var s := DrawOver(chs[i], tex, smpStart, smpEnd, pixStart, pixPerSample, base, done + sofar.0);
      ghost var mine := Renderer.ChannelStrokes(renderer, chs[i], smpStart, smpEnd, pixStart, pixPerSample);
      assert sofar == ChannelsStrokes(renderer, chs[..i], smpStart, smpEnd, pixStart, pixPerSample);
      ChannelsStrokesSnoc(renderer, chs, i, smpStart, smpEnd, pixStart, pixPerSample, tex, base, done, sofar, mine);
      stamps := stampsIn + s;
    }

    /** A channel renders over what is on the texture. */
    method DrawOver(ch: Channel.OscChannel, tex: array2<int>, smpStart: int, smpEnd: int, pixStart: real, pixPerSample: real,
                    ghost base: seq<seq<int>>, ghost done: seq<Stroke>)
      returns (stamps: seq<Renderer.Stamp>)
      requires renderer.Ready() && tex == renderer.screenTexture && ch.buffer.Length == BUFFER_SIZE
      requires PaintedOver(tex, base, done)
      modifies ch`isDirtyStatusText, ch.minMax, tex
      ensures var mine := Renderer.ChannelStrokes(renderer, ch, smpStart, smpEnd, pixStart, pixPerSample);
              PaintedOver(tex, base, done + mine.0) && stamps == mine.1
      ensures Measured(ch, smpStart, smpEnd, old(StatsOf(ch.minMax)), old(ch.isDirtyStatusText))
    {
      ghost var prev := Checkpoint(tex, base, done);
      stamps := Renderer.RenderChannel(ch, renderer, smpStart, smpEnd, pixStart, pixPerSample);
      PaintedThen(tex, base, done, prev, Renderer.ChannelStrokes(renderer, ch, smpStart, smpEnd, pixStart, pixPerSample).0);
    }

    /** Channel i acquires at addr from what its probe holds now. */
    method AcquireOne(i: int, addr: int, dt: real) returns (ghost seen: Vec3, ghost read: Vec3)
      requires 0 <= i < channels.Length && 0 <= addr < BUFFER_SIZE
      requires channels[i].isPlugged ==> channels[i].probe != null && channels[i].buffer.Length == BUFFER_SIZE
      modifies {channels[i]}`sample, {channels[i]}`dclevel, channels[i].buffer
      modifies (if channels[i].probe != null then {channels[i].probe} else {})`sample
      ensures Acquired(channels[i], addr, dt, seen, read, old(CellOf(channels[i])))
      ensures channels[i].isPlugged ==> seen == old(channels[i].probe.sample) && channels[i].probe.sample == read
      ensures !channels[i].isPlugged && channels[i].probe != null ==> channels[i].probe.sample == old(channels[i].probe.sample)
    {
      var ch := channels[i];
      seen := if ch.probe != null then ch.probe.sample else ZERO;
      ch.AcquireSample(addr, dt);
      read := if ch.isPlugged then ch.probe.sample else seen;
    }
  }
}

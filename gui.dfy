// The keyboard front end of the oscilloscope: the main key shows, focuses or
// hides it, the digit keys select a channel (or, with shift, the trigger's
// source), and the remaining keys adjust the trigger, the grid or the
// selected channel. Keyboard input arrives as a set of booleans, and the
// calls into the trigger, the channels and the grid come back as a list of
// commands for the oscilloscope to carry out.

module GuiManager {
  import opened Numerics
  import opened OscTypes

  /** Array.IndexOf: the first index holding v, or -1. */
  function IndexOf<T(==)>(values: seq<T>, v: T): (j: int)
    ensures -1 <= j < |values|
    ensures j == -1 <==> v !in values
    ensures 0 <= j ==> values[j] == v && forall i :: 0 <= i < j ==> values[i] != v
  {
    if |values| == 0 then -1
    else if values[0] == v then 0
    else
      var j := IndexOf(values[1..], v);
      if j == -1 then -1 else j + 1
  }

  /** GetNextEnum over the declared values: the next one, wrapping from the last to the first. */
  function NextEnum<T(==)>(values: seq<T>, src: T): (r: T)
    requires |values| > 0
    ensures r in values
  {
    var j := IndexOf(values, src) + 1;
    if |values| == j then values[0] else values[j]
  }

  /** GetPrevEnum over the declared values: the previous one, wrapping from the first to the last. */
  function PrevEnum<T(==)>(values: seq<T>, src: T): (r: T)
    requires |values| > 0
    ensures r in values
  {
    var j := IndexOf(values, src) - 1;
    if 0 > j then values[|values| - 1] else values[j]
  }

  /** The declared values of an enumeration are pairwise different. */
  predicate Distinct<T(==)>(values: seq<T>)
  {
    forall i, j :: 0 <= i < j < |values| ==> values[i] != values[j]
  }

  /** In a list without repeats IndexOf finds the position of each entry. */
  lemma IndexOfDistinct<T>(values: seq<T>, i: int)
    requires Distinct(values) && 0 <= i < |values|
    ensures IndexOf(values, values[i]) == i
  {
  }

  /** Stepping moves one place along the declaration order, cyclically. */
  lemma NextEnumIndex<T>(values: seq<T>, i: int)
    requires Distinct(values) && 0 <= i < |values|
    ensures NextEnum(values, values[i]) == values[if i + 1 == |values| then 0 else i + 1]
    ensures PrevEnum(values, values[i]) == values[if i == 0 then |values| - 1 else i - 1]
  {
    IndexOfDistinct(values, i);
  }

  /** next(prev(v)) == v and prev(next(v)) == v for every declared value. */
  lemma NextPrevInverse<T>(values: seq<T>, v: T)
    requires Distinct(values) && v in values
    ensures NextEnum(values, PrevEnum(values, v)) == v
    ensures PrevEnum(values, NextEnum(values, v)) == v
  {
    var i := IndexOf(values, v);
    var n := |values|;
    NextEnumIndex(values, i);
    NextEnumIndex(values, if i == 0 then n - 1 else i - 1);
    NextEnumIndex(values, if i + 1 == n then 0 else i + 1);
  }

  /** GetNextEnum applied k times. */
  function NextTimes<T(==)>(values: seq<T>, v: T, k: nat): (r: T)
    requires |values| > 0
    ensures k > 0 ==> r in values
  {
    if k == 0 then v else NextEnum(values, NextTimes(values, v, k - 1))
  }

  /** k steps from the i-th value land k places further on, wrapping once past the end. */
  lemma {:induction false} NextTimesIndex<T>(values: seq<T>, i: int, k: nat)
    requires Distinct(values) && 0 <= i < |values| && i + k < 2 * |values|
    ensures NextTimes(values, values[i], k) == values[if i + k < |values| then i + k else i + k - |values|]
  {
    if k > 0 {
      var n := |values|;
      var j := if i + k - 1 < n then i + k - 1 else i + k - 1 - n;
      NextTimesIndex(values, i, k - 1);
      assert NextTimes(values, values[i], k - 1) == values[j];
      NextEnumIndex(values, j);
      assert (if j + 1 == n then 0 else j + 1) == (if i + k < n then i + k else i + k - n);
    }
  }

  /** As many steps as there are values bring every value back to itself. */
  lemma NextCycle<T>(values: seq<T>, v: T)
    requires Distinct(values) && v in values
    ensures NextTimes(values, v, |values|) == v
  {
    NextTimesIndex(values, IndexOf(values, v), |values|);
  }

  /** The mode key cycles Auto, Normal, Single and back to Auto. */
  lemma TriggerModeCycle()
    ensures NextEnum(TRIGGER_MODES, Auto) == Normal
    ensures NextEnum(TRIGGER_MODES, Normal) == Single
    ensures NextEnum(TRIGGER_MODES, Single) == Auto
  {
    NextEnumIndex(TRIGGER_MODES, 0);
    NextEnumIndex(TRIGGER_MODES, 1);
    NextEnumIndex(TRIGGER_MODES, 2);
  }

  /** The edge key and the view key toggle between the two values. */
  lemma ToggleCycles()
    ensures NextEnum(TRIGGER_EDGES, Rising) == Falling && NextEnum(TRIGGER_EDGES, Falling) == Rising
    ensures NextEnum(STYLES, Default) == Logic && NextEnum(STYLES, Logic) == Default
  {
    NextEnumIndex(TRIGGER_EDGES, 0);
    NextEnumIndex(TRIGGER_EDGES, 1);
    NextEnumIndex(STYLES, 0);
    NextEnumIndex(STYLES, 1);
  }

  /** The grid flags for a grid setting: DrawGrid is bit 0, both rulers are bit 1. */
  datatype GridFlags = GridFlags(drawGrid: bool, rulers: bool)

  function GridBits(g: nat): (r: GridFlags)
    ensures r.drawGrid <==> g % 2 == 1
    ensures r.rulers <==> g % 4 >= 2
  {
    GridFlags(g % 2 == 1, (g / 2) % 2 == 1)
  }

  /** Four presses of the grid key restore the flags. */
  lemma GridBitsPeriod(g: nat)
    ensures GridBits(g + 4) == GridBits(g)
  {
    assert (g + 4) % 2 == g % 2;
    assert (g + 4) % 4 == g % 4;
  }

  /** From the initial setting 0 the presses show grid, rulers, both, nothing. */
  lemma GridBitsSequence()
    ensures GridBits(1) == GridFlags(true, false)
    ensures GridBits(2) == GridFlags(false, true)
    ensures GridBits(3) == GridFlags(true, true)
    ensures GridBits(4) == GridFlags(false, false)
  {
  }

  /** The keys read in one frame: GetKeyDown for each key, GetKey for shift. */
  datatype Keys = Keys(
    main: bool,           // F11
    selectTrigger: bool,  // Alpha0
    shift: bool,          // LeftShift held
    digits: set<nat>,     // Alpha1..Alpha8 pressed, as 0..7
    pause: bool, forceStart: bool, mode: bool, edge: bool, grid: bool,
    plus: bool, minus: bool, up: bool, down: bool, right: bool, left: bool,
    auto: bool, acDc: bool, unplug: bool, view: bool)

  /** A call the manager makes into the trigger, a channel (by index) or the grid. */
  datatype Command =
    | SetTriggerChannel(name: ChannelName)
    | TogglePause
    | ForceTrigger
    | NextTriggerMode
    | NextTriggerEdge
    | SetGrid(flags: GridFlags)
    | SecondsDivisionPlus
    | SecondsDivisionMinus
    | LevelBy(delta: real)
    | PositionBy(delta: real)
    | ToggleAutoGain(channel: nat)
    | ToggleDecoupling(channel: nat)
    | Unplug(channel: nat)
    | NextStyle(channel: nat)
    | ChannelPositionBy(channel: nat, delta: real)
    | GainPlus(channel: nat)
    | GainMinus(channel: nat)
  {
    /** Commands addressed to a channel rather than to the trigger or the grid. */
    predicate ForChannel()
    {
      ToggleAutoGain? || ToggleDecoupling? || Unplug? || NextStyle? || ChannelPositionBy? || GainPlus? || GainMinus?
    }
  }

  /** The trigger and grid keys, first match wins: pause, force start, mode, edge, grid. */
  function GlobalKey(k: Keys, gridSetting: nat): (r: seq<Command>)
    ensures |r| <= 1
    ensures k.pause ==> r == [TogglePause]
    ensures !k.pause && k.forceStart ==> r == [ForceTrigger]
    ensures r == [] <==> !(k.pause || k.forceStart || k.mode || k.edge || k.grid)
    ensures forall c :: c in r ==> !c.ForChannel()
  {
    if k.pause then [TogglePause]
    else if k.forceStart then [ForceTrigger]
    else if k.mode then [NextTriggerMode]
    else if k.edge then [NextTriggerEdge]
    else if k.grid then [SetGrid(GridBits(gridSetting + 1))]
    else []
  }

  /** The cursor and plus/minus keys when the trigger is selected. */
  function TriggerKeys(k: Keys): (r: seq<Command>)
    ensures |r| <= 1
    ensures forall c :: c in r ==> !c.ForChannel()
    ensures k.up && !k.plus && !k.minus ==> r == [LevelBy(0.5)]
    ensures r == [] <==> !(k.plus || k.minus || k.up || k.down || k.right || k.left)
  {
    if k.plus then [SecondsDivisionPlus]
    else if k.minus then [SecondsDivisionMinus]
    else if k.up then [LevelBy(0.5)]
    else if k.down then [LevelBy(-0.5)]
    else if k.right then [PositionBy(0.5)]
    else if k.left then [PositionBy(-0.5)]
    else []
  }

  /** The channel keys when channel ch is selected: one setting key, then one cursor or gain key. */
  function ChannelKeys(k: Keys, ch: nat): (r: seq<Command>)
    ensures |r| <= 2
    ensures forall c :: c in r ==> c.ForChannel() && c.channel == ch
    ensures k.up ==> |r| > 0 && r[|r| - 1] == ChannelPositionBy(ch, 0.5)
    ensures r == [] <==> !(k.auto || k.acDc || k.unplug || k.view || k.up || k.down || k.plus || k.minus)
  {
    var setting :=
      if k.auto then [ToggleAutoGain(ch)]
      else if k.acDc then [ToggleDecoupling(ch)]
      else if k.unplug then [Unplug(ch)]
      else if k.view then [NextStyle(ch)]
      else [];
    var cursor :=
      if k.up then [ChannelPositionBy(ch, 0.5)]
      else if k.down then [ChannelPositionBy(ch, -0.5)]
      else if k.plus then [GainPlus(ch)]
      else if k.minus then [GainMinus(ch)]
      else [];
    setting + cursor
  }

  /** What the help text shows. */
  datatype HelpPage = NoText | ToFocus | TriggerPage | ChannelPage(channel: nat)

  const TO_FOCUS_HELP: string := "` activate keyboard shortcuts\n"
  const CHANNEL_HELP: string := "1,2,..,8 select input\nA auto, C coupling\nU unplug, V view\nUP,DOWN position\n+,- gain\n"
  const TRIGGER_HELP: string := "SHIFT+1,2,..,8 select input\nM mode, E edge\nUP,DOWN level\nLEFT,RIGHT time position\n+,- time scale"
  const PERSIST_HELP: string := "PAUSE pause, S force start\n"

  /** The help text of a page, as UpdateHelp concatenates it; name is the selected channel's C1..C8. */
  function HelpText(page: HelpPage, name: string): (r: string)
    ensures page.ToFocus? ==> r == TO_FOCUS_HELP
    ensures page.TriggerPage? || page.ChannelPage? ==> |r| >= |PERSIST_HELP| && r[|r| - |PERSIST_HELP|..] == PERSIST_HELP
  {
    match page
    case NoText => ""
    case ToFocus => TO_FOCUS_HELP
    case TriggerPage => "TRIGGER:\n" + TRIGGER_HELP + PERSIST_HELP
    case ChannelPage(_) => "CHANNEL: " + name + "\n" + CHANNEL_HELP + PERSIST_HELP
  }

  class OscGuiManager {
    /** oscilloscope.oscChannels.Length, which GetChannel reduces names by. */
    const channelCount: nat
    /** oscCanvas.enabled: the IsVisible property. */
    var canvasEnabled: bool
    /** keyboard.enabled: the keyboard icon. */
    var keyboardEnabled: bool
    var isInFocus: bool
    var updateHelp: bool
    var gridSetting: nat
    /** The selected channel's index, or None when the trigger is selected. */
    var selected: Option<nat>
    /** The trigger's ledSelected and the channels whose ledSelected is on. */
    var triggerLed: bool
    var channelLeds: set<nat>
    var help: HelpPage

    /** Exactly the selected item's LED is lit, and a selected channel exists. */
    predicate Valid()
      reads this
    {
      channelCount > 0 &&
      (selected.Some? ==> selected.value < channelCount) &&
      triggerLed == selected.None? &&
      channelLeds == (if selected.Some? then {selected.value} else {})
    }

    constructor (channelCount: nat)
      ensures this.channelCount == channelCount
      ensures !canvasEnabled && !keyboardEnabled && !isInFocus && !updateHelp
      ensures gridSetting == 0 && selected.None? && !triggerLed && channelLeds == {} && help == NoText
    {
      this.channelCount := channelCount;
      canvasEnabled, keyboardEnabled, isInFocus, updateHelp := false, false, false, false;
      gridSetting, selected, triggerLed, channelLeds, help := 0, None, false, {}, NoText;
    }

    /** Initialize: select channel C1, refresh the help, then hide the oscilloscope. */
    method Initialize()
      requires channelCount > 0
      requires selected.None? && channelLeds == {}
      modifies this
      ensures Valid()
      ensures selected == Some(0) && !canvasEnabled && !isInFocus && keyboardEnabled == old(keyboardEnabled)
      ensures updateHelp && gridSetting == old(gridSetting)
    {
      SelectChannel(C1);
      UpdateHelp();
      SetVisible(false);
    }

    /** The IsVisible setter: the canvas and the focus both take the value. */
    method SetVisible(value: bool)
      modifies this`canvasEnabled, this`isInFocus, this`updateHelp
      ensures canvasEnabled == value && isInFocus == value && updateHelp
    {
      canvasEnabled := value;
      isInFocus := value;
      updateHelp := true;
    }

    /** The IsInFocus setter: the keyboard icon and the focus take the value. */
    method SetInFocus(value: bool)
      modifies this`keyboardEnabled, this`isInFocus, this`updateHelp
      ensures keyboardEnabled == value && isInFocus == value && updateHelp
    {
      keyboardEnabled := value;
      isInFocus := value;
      updateHelp := true;
    }

    /** SelectChannel: GetChannel wraps the name over the channel count; only its LED stays lit. */
    method SelectChannel(name: ChannelName)
      requires channelCount > 0
      requires channelLeds == (if selected.Some? then {selected.value} else {})
      modifies this`triggerLed, this`channelLeds, this`selected, this`updateHelp
      ensures Valid()
      ensures selected == Some(name.Ordinal() % channelCount) && updateHelp
    {
      triggerLed := false;
      if selected.Some? {
        channelLeds := channelLeds - {selected.value};
      }
      var idx := name.Ordinal() % channelCount;
      selected := Some(idx);
      channelLeds := channelLeds + {idx};
      updateHelp := true;
    }

    /** SelectTriggerChannel: no channel is selected and the trigger's LED is lit. */
    method SelectTriggerChannel()
      requires Valid()
      modifies this`triggerLed, this`channelLeds, this`selected, this`updateHelp
      ensures Valid()
      ensures selected.None? && triggerLed && updateHelp
    {
      if selected.Some? {
        channelLeds := channelLeds - {selected.value};
      }
      selected := None;
      triggerLed := true;
      updateHelp := true;
    }

    /** UpdateHelp: clears the request; a visible oscilloscope shows the page for its focus and selection. */
    method UpdateHelp()
      modifies this`updateHelp, this`help
      ensures !updateHelp
      ensures !canvasEnabled ==> help == old(help)
      ensures canvasEnabled && !isInFocus ==> help == ToFocus
      ensures canvasEnabled && isInFocus && selected.None? ==> help == TriggerPage
      ensures canvasEnabled && isInFocus && selected.Some? ==> help == ChannelPage(selected.value)
    {
      updateHelp := false;
      if canvasEnabled {
        if !isInFocus {
          help := ToFocus;
        } else if selected.None? {
          help := TriggerPage;
        } else {
          help := ChannelPage(selected.value);
        }
      }
    }

    /**
     * The digit keys, in order 1..8: with shift each pressed one makes that
     * channel the trigger's source, without shift each selects its channel,
     * so the last pressed digit stays selected.
     */
    method DigitKeys(k: Keys) returns (cmds: seq<Command>)
      requires Valid()
      modifies this`triggerLed, this`channelLeds, this`selected, this`updateHelp
      ensures Valid()
      ensures cmds == (if k.shift then SourceCommands(k.digits, 8) else [])
      ensures selected == (if k.shift then old(selected) else LastDigit(k.digits, 8, old(selected), channelCount))
      ensures updateHelp == (old(updateHelp) || (!k.shift && AnyDigit(k.digits, 8)))
    {
      cmds := [];
      var i := 0;
      while i < 8
        invariant 0 <= i <= 8
        invariant Valid()
        invariant cmds == (if k.shift then SourceCommands(k.digits, i) else [])
        invariant selected == (if k.shift then old(selected) else LastDigit(k.digits, i, old(selected), channelCount))
        invariant updateHelp == (old(updateHelp) || (!k.shift && AnyDigit(k.digits, i)))
      {
        if i in k.digits {
          if k.shift {
            cmds := cmds + [SetTriggerChannel(CHANNEL_NAMES[i])];
          } else {
            NameOrdinal(i);
            SelectChannel(CHANNEL_NAMES[i]);
          }
        }
        i := i + 1;
      }
    }

    /**
     * The keys of a visible, focused oscilloscope: the selection keys, then
     * one trigger or grid key, then the cursor keys for the trigger when no
     * channel is selected and for the selected channel otherwise.
     */
    method Route(k: Keys) returns (cmds: seq<Command>)
      requires Valid()
      modifies this`triggerLed, this`channelLeds, this`selected, this`updateHelp, this`gridSetting
      ensures Valid()
      ensures selected == Selection(k, old(selected), channelCount)
      ensures gridSetting == old(gridSetting) + (if GlobalKey(k, old(gridSetting)) == [SetGrid(GridBits(old(gridSetting) + 1))] then 1 else 0)
      ensures updateHelp == (old(updateHelp) || k.selectTrigger || (!k.shift && AnyDigit(k.digits, 8)))
      ensures cmds == (if k.selectTrigger || !k.shift then [] else SourceCommands(k.digits, 8))
                      + GlobalKey(k, old(gridSetting)) + TargetKeys(k, selected)
    {
      if k.selectTrigger {
        SelectTriggerChannel();
        cmds := [];
      } else {
        cmds := DigitKeys(k);
      }
      var global := GlobalKey(k, gridSetting);
      if !k.pause && !k.forceStart && !k.mode && !k.edge && k.grid {
        gridSetting := gridSetting + 1;
      }
      cmds := cmds + global;
      if selected.None? {
        cmds := cmds + TriggerKeys(k);
      } else {
        cmds := cmds + ChannelKeys(k, selected.value);
      }
    }

    /**
     * One frame of Update. Hidden: the main key shows the oscilloscope (and
     * focuses it). Visible: the main key hides it when focused and focuses it
     * otherwise; without the main key a focused oscilloscope routes the keys.
     * A pending help refresh is then done.
     */
    method Update(k: Keys) returns (cmds: seq<Command>)
      requires Valid()
      modifies this`canvasEnabled, this`keyboardEnabled, this`isInFocus, this`updateHelp, this`help
      modifies this`triggerLed, this`channelLeds, this`selected, this`gridSetting
      ensures Valid() && !updateHelp
      ensures !old(canvasEnabled) && k.main ==> canvasEnabled && isInFocus && cmds == []
      ensures old(canvasEnabled) && k.main && old(isInFocus) ==> !canvasEnabled && !isInFocus && cmds == []
      ensures old(canvasEnabled) && k.main && !old(isInFocus) ==> canvasEnabled && isInFocus && keyboardEnabled && cmds == []
      ensures !k.main && !(old(canvasEnabled) && old(isInFocus)) ==>
        cmds == [] && selected == old(selected) && canvasEnabled == old(canvasEnabled) && isInFocus == old(isInFocus)
      ensures !k.main && old(canvasEnabled) && old(isInFocus) ==>
        canvasEnabled && isInFocus && selected == Selection(k, old(selected), channelCount) &&
        cmds == (if k.selectTrigger || !k.shift then [] else SourceCommands(k.digits, 8))
                + GlobalKey(k, old(gridSetting)) + TargetKeys(k, selected)
      ensures gridSetting == old(gridSetting) +
                (if !k.main && old(canvasEnabled) && old(isInFocus) &&
                    GlobalKey(k, old(gridSetting)) == [SetGrid(GridBits(old(gridSetting) + 1))] then 1 else 0)
      ensures k.main ==> selected == old(selected) && triggerLed == old(triggerLed) && channelLeds == old(channelLeds)
      ensures !(old(canvasEnabled) && k.main && !old(isInFocus)) ==> keyboardEnabled == old(keyboardEnabled)
      ensures help == if HelpRequested(k, old(updateHelp), old(canvasEnabled), old(isInFocus))
                      then HelpShown(canvasEnabled, isInFocus, selected, old(help)) else old(help)
    {
      cmds := Keyboard(k);
      if updateHelp {
        UpdateHelp();
      }
    }

    /** Update up to the help refresh: the main-key toggle or the routed keys. */
    method Keyboard(k: Keys) returns (cmds: seq<Command>)
      requires Valid()
      modifies this`canvasEnabled, this`keyboardEnabled, this`isInFocus, this`updateHelp
      modifies this`triggerLed, this`channelLeds, this`selected, this`gridSetting
      ensures Valid()
      ensures !old(canvasEnabled) && k.main ==> canvasEnabled && isInFocus && cmds == []
      ensures old(canvasEnabled) && k.main && old(isInFocus) ==> !canvasEnabled && !isInFocus && cmds == []
      ensures old(canvasEnabled) && k.main && !old(isInFocus) ==> canvasEnabled && isInFocus && keyboardEnabled && cmds == []
      ensures !k.main && !(old(canvasEnabled) && old(isInFocus)) ==>
        cmds == [] && selected == old(selected) && canvasEnabled == old(canvasEnabled) && isInFocus == old(isInFocus)
      ensures !k.main && old(canvasEnabled) && old(isInFocus) ==>
        canvasEnabled && isInFocus && selected == Selection(k, old(selected), channelCount) &&
        cmds == (if k.selectTrigger || !k.shift then [] else SourceCommands(k.digits, 8))
                + GlobalKey(k, old(gridSetting)) + TargetKeys(k, selected)
      ensures gridSetting == old(gridSetting) +
                (if !k.main && old(canvasEnabled) && old(isInFocus) &&
                    GlobalKey(k, old(gridSetting)) == [SetGrid(GridBits(old(gridSetting) + 1))] then 1 else 0)
      ensures k.main ==> selected == old(selected) && triggerLed == old(triggerLed) && channelLeds == old(channelLeds)
      ensures !(old(canvasEnabled) && k.main && !old(isInFocus)) ==> keyboardEnabled == old(keyboardEnabled)
      ensures updateHelp == HelpRequested(k, old(updateHelp), old(canvasEnabled), old(isInFocus))
    {
      cmds := [];
      if canvasEnabled {
        if k.main {
          if isInFocus {
            SetVisible(false);
          } else {
            SetInFocus(true);
          }
        } else if isInFocus {
          cmds := Route(k);
        }
      } else {
        if k.main {
          SetVisible(true);
        }
      }
    }
  }

  /**
   * Whether a help refresh is pending after a frame's keys: one already was,
   * or the main key showed, hid or focused the oscilloscope, or a focused one
   * changed its selection.
   */
  predicate HelpRequested(k: Keys, pending: bool, visible: bool, focused: bool)
  {
    pending || k.main || (visible && focused && (k.selectTrigger || (!k.shift && AnyDigit(k.digits, 8))))
  }

  /** The help page UpdateHelp shows: none while hidden, else the focus hint, the trigger page or the selected channel's page. */
  function HelpShown(visible: bool, focused: bool, sel: Option<nat>, prev: HelpPage): HelpPage
  {
    if !visible then prev
    else if !focused then ToFocus
    else if sel.None? then TriggerPage
    else ChannelPage(sel.value)
  }

  /** The selection after the selection keys: Alpha0 picks the trigger, unshifted digits pick a channel. */
  function Selection(k: Keys, prev: Option<nat>, count: nat): (r: Option<nat>)
    requires count > 0
    ensures k.selectTrigger ==> r.None?
    ensures !k.selectTrigger && (k.shift || !AnyDigit(k.digits, 8)) ==> r == prev
    ensures r.None? || r == prev || r.value < count
  {
    if k.selectTrigger then None
    else if k.shift then prev
    else LastDigit(k.digits, 8, prev, count)
  }

  /** The cursor keys go to the trigger when nothing is selected and to the selected channel otherwise. */
  function TargetKeys(k: Keys, selected: Option<nat>): (r: seq<Command>)
    ensures selected.None? ==> forall c :: c in r ==> !c.ForChannel()
    ensures selected.Some? ==> forall c :: c in r ==> c.ForChannel() && c.channel == selected.value
  {
    if selected.None? then TriggerKeys(k) else ChannelKeys(k, selected.value)
  }

  /** Alpha(i+1) names channel i. */
  lemma NameOrdinal(i: int)
    requires 0 <= i < 8
    ensures CHANNEL_NAMES[i].Ordinal() == i
  {
  }

  /** Whether any digit key below n is pressed. */
  function AnyDigit(digits: set<nat>, n: nat): (r: bool)
    ensures r <==> exists i :: 0 <= i < n && i in digits
  {
    if n == 0 then false else (n - 1 in digits) || AnyDigit(digits, n - 1)
  }

  /** The trigger-source commands of the shifted digit keys below n, in key order. */
  function SourceCommands(digits: set<nat>, n: nat): (r: seq<Command>)
    requires n <= 8
    ensures |r| <= n
    ensures forall c :: c in r ==> c.SetTriggerChannel?
    ensures forall i :: 0 <= i < n && i in digits ==> SetTriggerChannel(CHANNEL_NAMES[i]) in r
  {
    if n == 0 then []
    else SourceCommands(digits, n - 1) + (if n - 1 in digits then [SetTriggerChannel(CHANNEL_NAMES[n - 1])] else [])
  }

  /** The selection after the unshifted digit keys below n: the highest pressed one wins. */
  function LastDigit(digits: set<nat>, n: nat, prev: Option<nat>, count: nat): (r: Option<nat>)
    requires n <= 8 && count > 0
    ensures r == prev || (r.Some? && r.value < count)
    ensures (forall i :: 0 <= i < n ==> i !in digits) ==> r == prev
    ensures forall i :: 0 <= i < n && i in digits && (forall j :: i < j < n ==> j !in digits) ==> r == Some(i % count)
  {
    if n == 0 then prev
    else if n - 1 in digits then Some((n - 1) % count)
    else LastDigit(digits, n - 1, prev, count)
  }
}

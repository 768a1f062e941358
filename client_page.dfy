/** The controller side of the browser page both servers serve: the remap
    dialog (startRemap, checkRemapInput, finishRemap, resetDefaults), the maps
    it edits and persists in localStorage, and updateLoop, which samples the
    gamepad once per animation frame and emits `input_data` events. */
module ClientPage {
  import opened Common
  import opened Gamepad
  import opened ControlPacket

  /** A canonical button bit, as the settings table offers it. */
  type Bit = b: int | 0 <= b < 16

  /** Which entry of which map a remap rebinds (remapMode's type and key). */
  datatype Target = AxisTarget(axis: Axis) | ButtonTarget(bit: Bit)

  /** remapMode: null, or the target being listened for. */
  datatype Mode = Idle | Listening(target: Target)

  /** baselineState: the pad as it was when the remap started. */
  datatype Snapshot = Snapshot(axes: seq<real>, buttons: seq<bool>)

  /** The remap state machine's state: the mode, the baseline, the two live
      maps and the two localStorage entries (None when absent). */
  datatype Mapper = Mapper(
    mode: Mode,
    baseline: Snapshot,
    axisMap: AxisMap,
    buttonMap: ButtonMap,
    storedAxisMap: Option<AxisMap>,
    storedButtonMap: Option<ButtonMap>)

  /** main.py's baseline when no gamepad is connected: ten axes at rest and
      twenty released buttons. */
  function NoPadBaseline(): Snapshot {
    Snapshot(seq(10, _ => 0.0), seq(20, _ => false))
  }

  /** Page load: the stored maps when present, else the defaults. */
  function Loaded(storedAxes: Option<AxisMap>, storedButtons: Option<ButtonMap>): (s: Mapper)
    ensures s.mode == Idle
    ensures storedAxes.None? ==> s.axisMap == DefaultAxisMap()
    ensures storedButtons.None? ==> s.buttonMap == DefaultButtonMap()
    ensures storedAxes.Some? ==> s.axisMap == storedAxes.value
    ensures storedButtons.Some? ==> s.buttonMap == storedButtons.value
    ensures s.storedAxisMap == storedAxes && s.storedButtonMap == storedButtons
  {
    Mapper(Idle, Snapshot([], []), storedAxes.GetOr(DefaultAxisMap()),
           storedButtons.GetOr(DefaultButtonMap()), storedAxes, storedButtons)
  }

  /** startRemap: listen for `target`, snapshotting the pad as the baseline.
      Without a pad main.py snapshots a resting pad and main_linux.py keeps
      the previous baseline. */
  function AfterStartRemap(s: Mapper, variant: Variant, target: Target, gp: Option<Pad>): (t: Mapper)
    ensures t.mode == Listening(target)
    ensures t.axisMap == s.axisMap && t.buttonMap == s.buttonMap
    ensures t.storedAxisMap == s.storedAxisMap && t.storedButtonMap == s.storedButtonMap
    ensures gp.Some? ==> t.baseline == Snapshot(gp.value.axes, gp.value.buttons)
    ensures gp.None? && variant == Linux ==> t.baseline == s.baseline
  {
    var baseline :=
      match gp
      case Some(pad) => Snapshot(pad.axes, pad.buttons)
      case None => if variant == Windows then NoPadBaseline() else s.baseline;
    s.(mode := Listening(target), baseline := baseline)
  }

  /** finishRemap: persist both maps and leave remap mode. */
  function Finished(s: Mapper): Mapper {
    s.(mode := Idle, storedAxisMap := Some(s.axisMap), storedButtonMap := Some(s.buttonMap))
  }

  /** checkRemapInput on one reading: bind the first qualifying index, if
      any, and finish; otherwise keep listening. */
  function AfterCheckRemap(s: Mapper, gp: Option<Pad>): Mapper {
    if s.mode.Idle? || gp.None? then s
    else
      match s.mode.target
      case ButtonTarget(bit) =>
        (match FirstNewPress(gp.value.buttons, s.baseline.buttons)
         case Some(i) => Finished(s.(buttonMap := s.buttonMap[bit := i]))
         case None => s)
      case AxisTarget(a) =>
        (match FirstMovedAxis(gp.value.axes, s.baseline.axes)
         case Some(i) => Finished(s.(axisMap := s.axisMap[a := i]))
         case None => s)
  }

  /** resetDefaults: both maps back to the defaults, both stored entries
      removed; a remap in progress goes on. */
  function AfterReset(s: Mapper): Mapper {
    s.(axisMap := DefaultAxisMap(), buttonMap := DefaultButtonMap(),
       storedAxisMap := None, storedButtonMap := None)
  }

  /** A button remap binds the lowest button that is pressed now and was not
      at the snapshot, persists both maps and returns to idle; with no such
      button nothing changes and the remap keeps listening. */
  lemma ButtonRemapBindsFirstNewPress(s: Mapper, pad: Pad, bit: Bit)
    requires s.mode == Listening(ButtonTarget(bit))
    ensures var t := AfterCheckRemap(s, Some(pad));
      (exists i: nat :: NewlyPressed(pad.buttons, s.baseline.buttons, i)) ==>
        && t.mode == Idle
        && bit in t.buttonMap && 0 <= t.buttonMap[bit]
        && NewlyPressed(pad.buttons, s.baseline.buttons, t.buttonMap[bit])
        && (forall j: nat :: j < t.buttonMap[bit] ==> !NewlyPressed(pad.buttons, s.baseline.buttons, j))
        && (forall b :: b != bit ==> (b in t.buttonMap <==> b in s.buttonMap))
        && (forall b :: b != bit && b in s.buttonMap ==> t.buttonMap[b] == s.buttonMap[b])
        && t.axisMap == s.axisMap
        && t.storedAxisMap == Some(t.axisMap) && t.storedButtonMap == Some(t.buttonMap)
    ensures (forall i: nat :: !NewlyPressed(pad.buttons, s.baseline.buttons, i)) ==>
      AfterCheckRemap(s, Some(pad)) == s
  {
  }

  /** An axis remap binds the lowest axis that moved strictly more than 0.5
      from its baseline, persists both maps and returns to idle; with no such
      axis nothing changes and the remap keeps listening. */
  lemma AxisRemapBindsFirstMovedAxis(s: Mapper, pad: Pad, a: Axis)
    requires s.mode == Listening(AxisTarget(a))
    ensures var t := AfterCheckRemap(s, Some(pad));
      (exists i: nat :: AxisMoved(pad.axes, s.baseline.axes, i)) ==>
        && t.mode == Idle
        && a in t.axisMap && 0 <= t.axisMap[a]
        && AxisMoved(pad.axes, s.baseline.axes, t.axisMap[a])
        && (forall j: nat :: j < t.axisMap[a] ==> !AxisMoved(pad.axes, s.baseline.axes, j))
        && t.axisMap == s.axisMap[a := t.axisMap[a]]
        && t.buttonMap == s.buttonMap
        && t.storedAxisMap == Some(t.axisMap) && t.storedButtonMap == Some(t.buttonMap)
    ensures (forall i: nat :: !AxisMoved(pad.axes, s.baseline.axes, i)) ==>
      AfterCheckRemap(s, Some(pad)) == s
  {
  }

  /** A pad that reads exactly as at the snapshot binds nothing, however
      far from centre its axes rest. */
  lemma UnchangedPadBindsNothing(s: Mapper, pad: Pad)
    requires s.mode.Listening?
    requires pad == Pad(s.baseline.axes, s.baseline.buttons)
    ensures AfterCheckRemap(s, Some(pad)) == s
  {
    RestingAxisNeverMoves(pad.axes, s.baseline.axes);
  }

  /** main.py starting a remap with no pad: ten zero axes, twenty released buttons. */
  lemma NoPadRemapBaseline(s: Mapper, target: Target)
    ensures var b := AfterStartRemap(s, Windows, target, None).baseline;
      |b.axes| == 10 && |b.buttons| == 20 &&
      (forall i | 0 <= i < 10 :: b.axes[i] == 0.0) &&
      (forall i | 0 <= i < 20 :: !b.buttons[i])
  {
  }

  /** resetDefaults restores {lx:0, ly:1, rx:2, ry:3} and the identity on
      bits 0..15, and removes both stored entries. */
  lemma ResetRestoresDefaults(s: Mapper)
    ensures var t := AfterReset(s);
      && t.axisMap == map[LX := 0, LY := 1, RX := 2, RY := 3]
      && (forall b :: b in t.buttonMap <==> 0 <= b < 16)
      && (forall b | 0 <= b < 16 :: t.buttonMap[b] == b)
      && t.storedAxisMap == None && t.storedButtonMap == None
      && t.mode == s.mode
  {
  }

  /** The maps of main_linux.py as written.  When nothing is stored the
      page's map IS the defaults object (`stored || defaultAxes` yields the
      object, not a copy), so a remap writes through to the defaults, and
      resetDefaults (`{...defaultAxes}`) copies the remapped values back. */
  datatype AliasedMaps = AliasedMaps(
    defaultAxes: AxisMap,
    defaultButtons: ButtonMap,
    axisMap: AxisMap,
    buttonMap: ButtonMap,
    axesAliased: bool,
    buttonsAliased: bool)

  function LoadedAsWritten(storedAxes: Option<AxisMap>, storedButtons: Option<ButtonMap>): AliasedMaps {
    AliasedMaps(DefaultAxisMap(), DefaultButtonMap(),
                storedAxes.GetOr(DefaultAxisMap()), storedButtons.GetOr(DefaultButtonMap()),
                storedAxes.None?, storedButtons.None?)
  }

  /** `axisMap[key] = idx` as written: also changes the defaults while aliased. */
  function BindAxisAsWritten(s: AliasedMaps, a: Axis, i: int): AliasedMaps {
    var m := s.axisMap[a := i];
    s.(axisMap := m, defaultAxes := if s.axesAliased then m else s.defaultAxes)
  }

  /** `buttonMap[key] = idx` as written: also changes the defaults while aliased. */
  function BindButtonAsWritten(s: AliasedMaps, bit: Bit, i: int): AliasedMaps {
    var m := s.buttonMap[bit := i];
    s.(buttonMap := m, defaultButtons := if s.buttonsAliased then m else s.defaultButtons)
  }

  /** resetDefaults as written: fresh copies of the (possibly rewritten) defaults. */
  function ResetAsWritten(s: AliasedMaps): AliasedMaps {
    s.(axisMap := s.defaultAxes, buttonMap := s.defaultButtons,
       axesAliased := false, buttonsAliased := false)
  }

  /** On a fresh page with nothing stored, remapping lx to axis 5 and then
      pressing "Reset Defaults" leaves lx on axis 5, and a remapped button bit
      likewise stays remapped. */
  lemma ResetAfterRemapKeepsBinding()
    ensures ResetAsWritten(BindAxisAsWritten(LoadedAsWritten(None, None), LX, 5)).axisMap[LX] == 5
    ensures ResetAsWritten(BindAxisAsWritten(LoadedAsWritten(None, None), LX, 5)).axisMap != DefaultAxisMap()
    ensures ResetAsWritten(BindButtonAsWritten(LoadedAsWritten(None, None), 0, 7)).buttonMap[0] == 7
  {
  }

  /** One `input_data` event; `player` is absent in main.py's events. */
  datatype InputEvent = InputEvent(player: Option<int>, buttons: int, lx: int, ly: int, rx: int, ry: int)

  /** The player choices of main_linux.py's select box. */
  type Player = p: int | p == 1 || p == 2 witness 1

  /** The player field the build's page sends. */
  function PlayerField(variant: Variant, player: Player): Option<int> {
    match variant
    case Windows => None
    case Linux => Some(player)
  }

  /** The event updateLoop builds from one reading through the two maps. */
  function SampleEvent(player: Option<int>, pad: Pad, am: AxisMap, bm: ButtonMap): (e: InputEvent)
    ensures e.player == player
    ensures 0 <= e.buttons < 0x1_0000
    ensures forall b: nat :: BitSet(e.buttons, b) <==> b < ButtonBits && MappedPressed(pad, bm, b)
    ensures 0 <= e.lx <= 255 && 0 <= e.ly <= 255 && 0 <= e.rx <= 255 && 0 <= e.ry <= 255
  {
    ButtonsWordBits(pad, bm, 0);
    forall b: nat
      ensures BitSet(ButtonsWord(pad, bm), b) <==> b < ButtonBits && MappedPressed(pad, bm, b)
    {
      ButtonsWordBits(pad, bm, b);
    }
    InputEvent(player, ButtonsWord(pad, bm),
               NormalizeAxis(ReadAxis(pad, am, LX)), NormalizeAxis(ReadAxis(pad, am, LY)),
               NormalizeAxis(ReadAxis(pad, am, RX)), NormalizeAxis(ReadAxis(pad, am, RY)))
  }

  /** The JSON object socket.emit sends for an event. */
  function EventJson(e: InputEvent): Value {
    var fields := map["buttons" := Int(e.buttons), "lx" := Int(e.lx), "ly" := Int(e.ly),
                      "rx" := Int(e.rx), "ry" := Int(e.ry)];
    Obj(if e.player.Some? then fields["player" := Int(e.player.value)] else fields)
  }

  /** main_linux.py's minimum spacing of events, in milliseconds. */
  const SendInterval: int := 16

  /** Whether updateLoop emits on this frame: a pad is present, no remap is
      in progress, and on main_linux.py more than 16 ms have passed since the
      last event (main.py emits on every frame). */
  predicate Emits(variant: Variant, mode: Mode, gp: Option<Pad>, now: int, lastSent: int) {
    gp.Some? && mode.Idle? && (variant == Windows || now - lastSent > SendInterval)
  }

  /** The page's controller state (one per browser tab). */
  class ControllerPage {
    const variant: Variant
    var mode: Mode
    var baseline: Snapshot
    var axisMap: AxisMap
    var buttonMap: ButtonMap
    var storedAxisMap: Option<AxisMap>
    var storedButtonMap: Option<ButtonMap>
    var lastSentTime: int
    /** The `input_data` events emitted so far, oldest first. */
    var emitted: seq<InputEvent>

    function State(): Mapper
      reads this
    {
      Mapper(mode, baseline, axisMap, buttonMap, storedAxisMap, storedButtonMap)
    }

    /** Page load with what localStorage holds. */
    constructor (variant: Variant, storedAxes: Option<AxisMap>, storedButtons: Option<ButtonMap>)
      ensures this.variant == variant
      ensures State() == Loaded(storedAxes, storedButtons)
      ensures lastSentTime == 0 && emitted == []
    {
      this.variant := variant;
      mode := Idle;
      baseline := Snapshot([], []);
      axisMap := storedAxes.GetOr(DefaultAxisMap());
      buttonMap := storedButtons.GetOr(DefaultButtonMap());
      storedAxisMap := storedAxes;
      storedButtonMap := storedButtons;
      lastSentTime := 0;
      emitted := [];
    }

    method StartRemap(target: Target, gp: Option<Pad>)
      modifies this
      ensures State() == AfterStartRemap(old(State()), variant, target, gp)
      ensures lastSentTime == old(lastSentTime) && emitted == old(emitted)
    {
      match gp {
        case Some(pad) =>
          baseline := Snapshot(pad.axes, pad.buttons);
        case None =>
          if variant == Windows {
            baseline := NoPadBaseline();
          }
      }
      mode := Listening(target);
    }

    method FinishRemap()
      modifies this
      ensures State() == Finished(old(State()))
      ensures lastSentTime == old(lastSentTime) && emitted == old(emitted)
    {
      storedAxisMap := Some(axisMap);
      storedButtonMap := Some(buttonMap);
      mode := Idle;
    }

    /** Scans the pad like the source's forEach; the first match binds and
      finishes the remap.  The source's scan goes on, but a second match
      would read the key of the cleared remapMode and throw, so the first
      binding is the one that stays. */
    method CheckRemapInput(gp: Option<Pad>)
      modifies this
      ensures State() == AfterCheckRemap(old(State()), gp)
      ensures lastSentTime == old(lastSentTime) && emitted == old(emitted)
    {
      if mode.Idle? || gp.None? {
        return;
      }
      var pad := gp.value;
      match mode.target
      case ButtonTarget(bit) =>
        var idx := 0;
        while idx < |pad.buttons|
          invariant 0 <= idx <= |pad.buttons|
          invariant State() == old(State())
          invariant lastSentTime == old(lastSentTime) && emitted == old(emitted)
          invariant forall j: nat :: j < idx ==> !NewlyPressed(pad.buttons, baseline.buttons, j)
        {
          if pad.buttons[idx] && !(idx < |baseline.buttons| && baseline.buttons[idx]) {
            assert NewlyPressed(pad.buttons, baseline.buttons, idx);
            buttonMap := buttonMap[bit := idx];
            FinishRemap();
            return;
          }
          idx := idx + 1;
        }
      case AxisTarget(a) =>
        var idx := 0;
        while idx < |pad.axes|
          invariant 0 <= idx <= |pad.axes|
          invariant State() == old(State())
          invariant lastSentTime == old(lastSentTime) && emitted == old(emitted)
          invariant forall j: nat :: j < idx ==> !AxisMoved(pad.axes, baseline.axes, j)
        {
          if Abs(pad.axes[idx] - BaselineAxis(baseline.axes, idx)) > AxisThreshold {
            assert AxisMoved(pad.axes, baseline.axes, idx);
            axisMap := axisMap[a := idx];
            FinishRemap();
            return;
          }
          idx := idx + 1;
        }
    }

    method ResetDefaults()
      modifies this
      ensures State() == AfterReset(old(State()))
      ensures lastSentTime == old(lastSentTime) && emitted == old(emitted)
    {
      axisMap := DefaultAxisMap();
      buttonMap := DefaultButtonMap();
      storedAxisMap := None;
      storedButtonMap := None;
    }

    /** One animation frame of updateLoop at clock `now` (Date.now() in ms)
        with the player chosen in the select box.  `again` says whether the
        loop asks for another frame: main.py stops when the pad is gone. */
    method UpdateLoop(gp: Option<Pad>, now: int, player: Player) returns (again: bool)
      modifies this
      ensures again == (variant == Linux || gp.Some?)
      ensures State() == AfterCheckRemap(old(State()), gp)
      ensures var sends := Emits(variant, old(mode), gp, now, old(lastSentTime));
        && emitted == old(emitted) +
             (if sends then [SampleEvent(PlayerField(variant, player), gp.value, axisMap, buttonMap)] else [])
        && lastSentTime == (if sends && variant == Linux then now else old(lastSentTime))
    {
      if variant == Windows {
        if gp.None? {
          return false;
        }
        if mode.Listening? {
          CheckRemapInput(gp);
          return true;
        }
        EmitSample(gp.value, None);
        return true;
      } else {
        if gp.Some? && mode.Idle? && now - lastSentTime > SendInterval {
          EmitSample(gp.value, Some(player as int));
          lastSentTime := now;
        }
        if mode.Listening? {
          CheckRemapInput(gp);
        }
        return true;
      }
    }

    /** Builds and emits one event from a reading. */
    method EmitSample(pad: Pad, player: Option<int>)
      modifies this
      ensures State() == old(State()) && lastSentTime == old(lastSentTime)
      ensures emitted == old(emitted) + [SampleEvent(player, pad, axisMap, buttonMap)]
    {
      var lx, ly, rx, ry;
      if variant == Windows {
        lx := NormalizeAxisStepwise(ReadAxis(pad, axisMap, LX));
        ly := NormalizeAxisStepwise(ReadAxis(pad, axisMap, LY));
        rx := NormalizeAxisStepwise(ReadAxis(pad, axisMap, RX));
        ry := NormalizeAxisStepwise(ReadAxis(pad, axisMap, RY));
        NormalizeFormsAgree(ReadAxis(pad, axisMap, LX));
        NormalizeFormsAgree(ReadAxis(pad, axisMap, LY));
        NormalizeFormsAgree(ReadAxis(pad, axisMap, RX));
        NormalizeFormsAgree(ReadAxis(pad, axisMap, RY));
      } else {
        lx := NormalizeAxis(ReadAxis(pad, axisMap, LX));
        ly := NormalizeAxis(ReadAxis(pad, axisMap, LY));
        rx := NormalizeAxis(ReadAxis(pad, axisMap, RX));
        ry := NormalizeAxis(ReadAxis(pad, axisMap, RY));
      }
      var buttons := ComputeButtonsWord(pad, buttonMap);
      emitted := emitted + [InputEvent(player, buttons, lx, ly, rx, ry)];
    }
  }

  /** Two successive animation frames of main_linux.py's page.  `first` and
      `second` say whether each frame emitted an event.  A frame that starts
      while a remap listens emits nothing, and two emitting frames are more
      than 16 ms apart. */
  method TwoFrames(page: ControllerPage, gp1: Option<Pad>, t1: int, gp2: Option<Pad>, t2: int, player: Player)
    returns (first: bool, second: bool)
    requires page.variant == Linux
    modifies page
    ensures |page.emitted| == |old(page.emitted)| + (if first then 1 else 0) + (if second then 1 else 0)
    ensures old(page.mode).Listening? ==> !first
    ensures first ==> gp1.Some? && old(page.mode) == Idle
    ensures first && second ==> t2 > t1 + SendInterval
  {
    var before := |page.emitted|;
    var _ := page.UpdateLoop(gp1, t1, player);
    first := |page.emitted| > before;
    var middle := |page.emitted|;
    var _ := page.UpdateLoop(gp2, t2, player);
    second := |page.emitted| > middle;
  }
}

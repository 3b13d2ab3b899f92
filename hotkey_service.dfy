/** The global keyboard hook of the desktop application. Every low-level key event first updates
    the four live modifier flags and then goes either to the recorder (which captures a new
    combination) or to the matcher (which raises de-duplicated Pressed/Released events for the
    configured hotkey). The hook answers Forward (pass the event on) or Suppress (swallow it).

    The step is specified by the function `Callback` on a `ServiceState` value; the class
    `Win32HotkeyService` keeps the same state in fields and is proved to follow `Callback`.
    The foreground window is an input of the step. */
module HotkeyService {
  import opened Wrappers
  import opened Text
  import opened Keys
  import opened KeyNames
  import opened Models

  datatype ServiceState = ServiceState(
    held: Mods,        // live modifier flags
    active: bool,      // a Pressed was raised and not yet released
    hotkeyVk: int,     // configured key, 0 for a modifiers-only hotkey
    required: Mods,    // configured modifiers
    recording: bool,   // recording a new combination
    captured: Mods)    // modifiers seen pressed while recording

  datatype Verdict = Forward | Suppress

  datatype HotkeyEvent =
    | Pressed(foregroundWindow: int)
    | Released
    | Recorded(config: HotkeyConfig, display: string)

  /** What one hook call does: the next state, the events raised in order, and the verdict. */
  datatype Step = Step(state: ServiceState, events: seq<HotkeyEvent>, verdict: Verdict)

  /** The field initialisers: nothing held, Win required, no key, not recording. */
  function InitialState(): ServiceState
  {
    ServiceState(NoMods, false, 0, NoMods.(win := true), false, NoMods)
  }

  function RequiredOf(config: HotkeyConfig): Mods
  {
    Mods(config.ctrl, config.shift, config.alt, config.win)
  }

  /** `UpdateHotkey` (and the configuration half of `Start`). */
  function UpdateHotkeySpec(s: ServiceState, config: HotkeyConfig): ServiceState
  {
    s.(required := RequiredOf(config), hotkeyVk := config.vkCode)
  }

  /** `StartRecording`: recording, with nothing captured yet. */
  function StartRecordingSpec(s: ServiceState): ServiceState
  {
    s.(recording := true, captured := NoMods)
  }

  /** `CancelRecording`: only leaves recording mode. */
  function CancelRecordingSpec(s: ServiceState): ServiceState
  {
    s.(recording := false)
  }

  /** `TrackModifier`: a modifier event sets its flag to whether it is a key-down and, while
      recording, a key-down also marks the modifier captured; other keys change nothing. */
  function Track(s: ServiceState, vk: int, isKeyDown: bool): ServiceState
  {
    var capture := s.recording && isKeyDown;
    var held := s.held;
    var held := if IsWinCode(vk) then held.(win := isKeyDown) else held;
    var held := if IsCtrlCode(vk) then held.(ctrl := isKeyDown) else held;
    var held := if IsShiftCode(vk) then held.(shift := isKeyDown) else held;
    var held := if IsAltCode(vk) then held.(alt := isKeyDown) else held;
    var captured := s.captured;
    var captured := if IsWinCode(vk) && capture then captured.(win := true) else captured;
    var captured := if IsCtrlCode(vk) && capture then captured.(ctrl := true) else captured;
    var captured := if IsShiftCode(vk) && capture then captured.(shift := true) else captured;
    var captured := if IsAltCode(vk) && capture then captured.(alt := true) else captured;
    s.(held := held, captured := captured)
  }

  /** A modifier event sets exactly its own flag to whether it is a key-down, and captures only
      that modifier and only on a key-down while recording; every other key changes nothing. */
  lemma TrackSpec(s: ServiceState, vk: int, isKeyDown: bool)
    ensures var r := Track(s, vk, isKeyDown);
            (ModifierOf(vk).None? ==> r == s)
            && (forall m :: r.held.Get(m) == if ModifierOf(vk) == Some(m) then isKeyDown else s.held.Get(m))
            && (forall m :: r.captured.Get(m)
                            <==> s.captured.Get(m) || (s.recording && isKeyDown && ModifierOf(vk) == Some(m)))
            && r == s.(held := r.held, captured := r.captured)
  {
  }

  function RecordedKeyConfig(captured: Mods, vk: int): HotkeyConfig
  {
    HotkeyConfig(captured.ctrl, captured.shift, captured.alt, captured.win, GetKeyName(vk), vk)
  }

  function RecordedModifiersConfig(captured: Mods): HotkeyConfig
  {
    HotkeyConfig(captured.ctrl, captured.shift, captured.alt, captured.win, "", 0)
  }

  /** `HandleRecordingMode`, on the state after tracking. */
  function RecordStep(s: ServiceState, vk: int, t: Transition): (step: Step)
    ensures step.state.held == s.held && step.state.active == s.active && step.state.captured == s.captured
    ensures step.state.hotkeyVk == s.hotkeyVk && step.state.required == s.required
  {
    if t == KeyDown && !IsModifierKey(vk) && s.captured.Any() then
      Step(s.(recording := false),
           [Recorded(RecordedKeyConfig(s.captured, vk), DisplayLabel(s.captured, vk))],
           if s.captured.win then Suppress else Forward)
    else if t == KeyUp && IsModifierKey(vk) && s.held.NoneHeld() && s.captured.Count() >= 2 then
      Step(s.(recording := false),
           [Recorded(RecordedModifiersConfig(s.captured), DisplayLabel(s.captured, 0))],
           Forward)
    else Step(s, [], Forward)
  }

  /** The modifiers-only half of `HandleHotkeyMode`: a modifier key-down that completes the
      required set raises Pressed, a modifier key-up that breaks it raises Released. */
  function ModifiersOnlyStep(s: ServiceState, vk: int, t: Transition, foregroundWindow: int): (step: Step)
    ensures step.state == s.(active := step.state.active)
  {
    if t == KeyDown && IsModifierKey(vk) && ModifiersMatch(s.required, s.held) && !s.active then
      Step(s.(active := true), [Pressed(foregroundWindow)], Forward)
    else if t == KeyUp && s.active && IsModifierKey(vk) && ModifierMissing(s.required, s.held) then
      Step(s.(active := false), [Released], Forward)
    else Step(s, [], Forward)
  }

  /** The key half of `HandleHotkeyMode`: a key-up that breaks the modifiers releases early; then
      only the configured key is looked at, and it is swallowed when Win is required. */
  function KeyHotkeyStep(s: ServiceState, vk: int, t: Transition, foregroundWindow: int): (step: Step)
    ensures step.state == s.(active := step.state.active)
  {
    var releasedEarly := t == KeyUp && s.active && ModifierMissing(s.required, s.held);
    var s1 := if releasedEarly then s.(active := false) else s;
    var early: seq<HotkeyEvent> := if releasedEarly then [Released] else [];
    if vk != s.hotkeyVk then Step(s1, early, Forward)
    else if t == KeyDown && ModifiersMatch(s.required, s.held) && s.required.Any() && !s1.active then
      Step(s1.(active := true), early + [Pressed(foregroundWindow)], if s.required.win then Suppress else Forward)
    else if t == KeyUp && s1.active then
      Step(s1.(active := false), early + [Released], if s.required.win then Suppress else Forward)
    else Step(s1, early, if s.held.win && s.required.win then Suppress else Forward)
  }

  /** `HandleHotkeyMode`, on the state after tracking: configured key 0 means modifiers only. */
  function MatchStep(s: ServiceState, vk: int, t: Transition, foregroundWindow: int): (step: Step)
    ensures step.state == s.(active := step.state.active)
  {
    if s.hotkeyVk == 0 then ModifiersOnlyStep(s, vk, t, foregroundWindow)
    else KeyHotkeyStep(s, vk, t, foregroundWindow)
  }

  /** `HookCallback`: a negative hook code is passed on untouched; otherwise track the modifiers and
      hand the event to the recorder or the matcher. */
  function Callback(s: ServiceState, nCode: int, msg: int, vk: int, foregroundWindow: int): (step: Step)
    ensures nCode < 0 ==> step == Step(s, [], Forward)
    ensures nCode >= 0 ==> step.state.held == Track(s, vk, TransitionOf(msg) == KeyDown).held
    ensures step.state.required == s.required && step.state.hotkeyVk == s.hotkeyVk
  {
    if nCode < 0 then Step(s, [], Forward)
    else
      var t := TransitionOf(msg);
      var tracked := Track(s, vk, t == KeyDown);
      if tracked.recording then RecordStep(tracked, vk, t) else MatchStep(tracked, vk, t, foregroundWindow)
  }

  // ---------------------------------------------------------------- the matcher's event trace

  predicate IsMatcherEvent(e: HotkeyEvent) { e.Pressed? || e.Released? }

  /** The Pressed and Released events of a sequence, in order. */
  function MatcherEvents(events: seq<HotkeyEvent>): (r: seq<HotkeyEvent>)
    ensures |r| <= |events|
    ensures forall i :: 0 <= i < |r| ==> IsMatcherEvent(r[i])
  {
    if |events| == 0 then []
    else MatcherEvents(events[..|events| - 1])
         + (if IsMatcherEvent(events[|events| - 1]) then [events[|events| - 1]] else [])
  }

  lemma {:induction false} MatcherEventsAppend(a: seq<HotkeyEvent>, b: seq<HotkeyEvent>)
    ensures MatcherEvents(a + b) == MatcherEvents(a) + MatcherEvents(b)
    decreases |b|
  {
    if |b| == 0 {
      assert a + b == a;
    } else {
      assert (a + b)[..|a + b| - 1] == a + b[..|b| - 1];
      MatcherEventsAppend(a, b[..|b| - 1]);
    }
  }

  /** Pressed and Released alternate, starting with Pressed, and the hotkey is active exactly
      when the last one was a Pressed. */
  predicate Balanced(trace: seq<HotkeyEvent>, active: bool)
  {
    (forall i :: 0 <= i < |trace| ==> (trace[i].Pressed? <==> i % 2 == 0) && (trace[i].Released? <==> i % 2 == 1))
    && (active <==> |trace| % 2 == 1)
  }

  /** One call raises at most one matcher event: a Pressed only from inactive to active, a
      Released only from active to inactive, and nothing else changes `active`. */
  lemma CallbackMatcherShape(s: ServiceState, nCode: int, msg: int, vk: int, foregroundWindow: int)
    ensures var step := Callback(s, nCode, msg, vk, foregroundWindow);
            var me := MatcherEvents(step.events);
            (me == [] && step.state.active == s.active)
            || (me == [Pressed(foregroundWindow)] && !s.active && step.state.active)
            || (me == [Released] && s.active && !step.state.active)
  {
    var step := Callback(s, nCode, msg, vk, foregroundWindow);
    if nCode >= 0 {
      var t := TransitionOf(msg);
      var tracked := Track(s, vk, t == KeyDown);
      if tracked.recording {
        var rs := RecordStep(tracked, vk, t);
        assert rs.events == [] || (|rs.events| == 1 && rs.events[0].Recorded?);
        assert MatcherEvents(rs.events) == [] by {
          if |rs.events| == 1 {
            assert rs.events[..0] == [];
          }
        }
      } else {
        MatchStepShape(tracked, vk, t, foregroundWindow);
      }
    }
  }

  lemma MatchStepShape(s: ServiceState, vk: int, t: Transition, foregroundWindow: int)
    ensures var step := MatchStep(s, vk, t, foregroundWindow);
            (step.events == [] && step.state.active == s.active)
            || (step.events == [Pressed(foregroundWindow)] && !s.active && step.state.active)
            || (step.events == [Released] && s.active && !step.state.active)
    ensures MatcherEvents(MatchStep(s, vk, t, foregroundWindow).events) == MatchStep(s, vk, t, foregroundWindow).events
  {
    var step := MatchStep(s, vk, t, foregroundWindow);
    var e := step.events;
    if |e| == 1 {
      assert e[..0] == [];
      assert MatcherEvents(e) == e;
    }
  }

  /** Appending no event, a Pressed to an inactive trace or a Released to an active one keeps
      the trace balanced. */
  lemma BalancedAppend(trace: seq<HotkeyEvent>, active: bool, me: seq<HotkeyEvent>, active': bool, fg: int)
    requires Balanced(trace, active)
    requires (me == [] && active' == active) || (me == [Pressed(fg)] && !active && active')
             || (me == [Released] && active && !active')
    ensures Balanced(trace + me, active')
  {
    var next := trace + me;
    if me != [] {
      assert next[|trace|] == me[0];
      assert forall i :: 0 <= i < |trace| ==> next[i] == trace[i];
    } else {
      assert next == trace;
    }
  }

  /** Each call keeps the trace of Pressed/Released balanced against `active`. */
  lemma CallbackKeepsBalance(trace: seq<HotkeyEvent>, s: ServiceState, nCode: int, msg: int, vk: int, foregroundWindow: int)
    requires Balanced(trace, s.active)
    ensures var step := Callback(s, nCode, msg, vk, foregroundWindow);
            Balanced(trace + MatcherEvents(step.events), step.state.active)
  {
    CallbackMatcherShape(s, nCode, msg, vk, foregroundWindow);
    var step := Callback(s, nCode, msg, vk, foregroundWindow);
    BalancedAppend(trace, s.active, MatcherEvents(step.events), step.state.active, foregroundWindow);
  }

  // ---------------------------------------------------------------- runs of several events

  datatype KeyInput = KeyInput(nCode: int, msg: int, vk: int, foregroundWindow: int)

  /** The hook applied to each input in turn: the final state, every event raised, and the
      verdict on the last input. */
  function Run(s: ServiceState, inputs: seq<KeyInput>): (run: Step)
    ensures run.state.required == s.required && run.state.hotkeyVk == s.hotkeyVk
  {
    if |inputs| == 0 then Step(s, [], Forward)
    else
      var before := Run(s, inputs[..|inputs| - 1]);
      var input := inputs[|inputs| - 1];
      var step := Callback(before.state, input.nCode, input.msg, input.vk, input.foregroundWindow);
      Step(step.state, before.events + step.events, step.verdict)
  }

  /** Whether the most recent hooked event for a modifier's codes was a key-down, if there was one. */
  function LastDown(inputs: seq<KeyInput>, m: Modifier): Option<bool>
  {
    if |inputs| == 0 then None
    else
      var input := inputs[|inputs| - 1];
      if input.nCode >= 0 && ModifierOf(input.vk) == Some(m) then Some(TransitionOf(input.msg) == KeyDown)
      else LastDown(inputs[..|inputs| - 1], m)
  }

  /** Each modifier flag equals the down/up state of the most recent event for one of its codes
      (left, right or generic), and keeps its old value while there was none. */
  lemma {:induction false} RunHeld(s: ServiceState, inputs: seq<KeyInput>, m: Modifier)
    ensures Run(s, inputs).state.held.Get(m) == LastDown(inputs, m).GetOr(s.held.Get(m))
  {
    if |inputs| > 0 {
      var before := Run(s, inputs[..|inputs| - 1]);
      var input := inputs[|inputs| - 1];
      RunHeld(s, inputs[..|inputs| - 1], m);
      if input.nCode >= 0 {
        TrackSpec(before.state, input.vk, TransitionOf(input.msg) == KeyDown);
      }
    }
  }

  /** Over any run, the Pressed/Released events alternate starting with Pressed, so a held key
      (auto-repeat) never raises a second Pressed. */
  lemma {:induction false} RunBalanced(s: ServiceState, inputs: seq<KeyInput>)
    requires !s.active
    ensures Balanced(MatcherEvents(Run(s, inputs).events), Run(s, inputs).state.active)
  {
    if |inputs| > 0 {
      var before := Run(s, inputs[..|inputs| - 1]);
      RunBalanced(s, inputs[..|inputs| - 1]);
      var input := inputs[|inputs| - 1];
      var step := Callback(before.state, input.nCode, input.msg, input.vk, input.foregroundWindow);
      CallbackKeepsBalance(MatcherEvents(before.events), before.state, input.nCode, input.msg, input.vk, input.foregroundWindow);
      MatcherEventsAppend(before.events, step.events);
    } else {
      assert MatcherEvents([]) == [];
    }
  }

  // ---------------------------------------------------------------- when the matcher fires

  /** Key mode: Pressed exactly on a key-down of the configured key with every required modifier
      held, at least one modifier required, and the hotkey not already active. */
  lemma KeyModePressed(s: ServiceState, nCode: int, msg: int, vk: int, foregroundWindow: int)
    requires nCode >= 0 && !s.recording && s.hotkeyVk != 0
    ensures var held := Track(s, vk, TransitionOf(msg) == KeyDown).held;
            Pressed(foregroundWindow) in Callback(s, nCode, msg, vk, foregroundWindow).events
            <==> TransitionOf(msg) == KeyDown && vk == s.hotkeyVk && ModifiersMatch(s.required, held)
                 && s.required.Any() && !s.active
  {
  }

  /** Key mode: Released exactly on a key-up while active that is the configured key's or leaves a
      required modifier unheld. */
  lemma KeyModeReleased(s: ServiceState, nCode: int, msg: int, vk: int, foregroundWindow: int)
    requires nCode >= 0 && !s.recording && s.hotkeyVk != 0
    ensures var held := Track(s, vk, TransitionOf(msg) == KeyDown).held;
            Released in Callback(s, nCode, msg, vk, foregroundWindow).events
            <==> TransitionOf(msg) == KeyUp && s.active && (vk == s.hotkeyVk || ModifierMissing(s.required, held))
  {
  }

  /** Modifiers-only mode: Pressed exactly on a modifier key-down that completes the required set
      while inactive, Released exactly on a modifier key-up that breaks it while active. */
  lemma ModifiersOnlyMode(s: ServiceState, nCode: int, msg: int, vk: int, foregroundWindow: int)
    requires nCode >= 0 && !s.recording && s.hotkeyVk == 0
    ensures var held := Track(s, vk, TransitionOf(msg) == KeyDown).held;
            var events := Callback(s, nCode, msg, vk, foregroundWindow).events;
            (Pressed(foregroundWindow) in events
             <==> TransitionOf(msg) == KeyDown && IsModifierKey(vk) && ModifiersMatch(s.required, held) && !s.active)
            && (Released in events
             <==> TransitionOf(msg) == KeyUp && IsModifierKey(vk) && ModifierMissing(s.required, held) && s.active)
  {
  }

  /** The hook swallows an event only while recording, when a key completes a combination with
      Win captured, or in key mode with Win required, for the configured key while Win is held. */
  lemma SuppressOnlyWhen(s: ServiceState, nCode: int, msg: int, vk: int, foregroundWindow: int)
    ensures var held := Track(s, vk, TransitionOf(msg) == KeyDown).held;
            Callback(s, nCode, msg, vk, foregroundWindow).verdict == Suppress
            <==> nCode >= 0
                 && if s.recording
                    then TransitionOf(msg) == KeyDown && !IsModifierKey(vk) && s.captured.Any() && s.captured.win
                    else s.hotkeyVk != 0 && vk == s.hotkeyVk && s.required.win && held.win
  {
    if nCode >= 0 {
      var t := TransitionOf(msg);
      var tracked := Track(s, vk, t == KeyDown);
      if !IsModifierKey(vk) {
        assert tracked == s;
      }
      if !s.recording && s.hotkeyVk != 0 && vk == s.hotkeyVk && s.required.win {
        MatchIsNotMissing(s.required, tracked.held);
        assert s.required.Get(Win);
      }
    }
  }

  // ---------------------------------------------------------------- the recorder

  /** While recording, no Pressed or Released is raised and `active` is untouched. */
  lemma RecordingIsolatesMatcher(s: ServiceState, nCode: int, msg: int, vk: int, foregroundWindow: int)
    requires s.recording
    ensures var step := Callback(s, nCode, msg, vk, foregroundWindow);
            MatcherEvents(step.events) == [] && step.state.active == s.active
  {
    CallbackMatcherShape(s, nCode, msg, vk, foregroundWindow);
    var step := Callback(s, nCode, msg, vk, foregroundWindow);
    if nCode >= 0 {
      var e := step.events;
      if |e| == 1 {
        assert e[..0] == [];
      }
    }
  }

  /** While recording, a configuration is emitted in exactly two cases, and each leaves recording:
      a non-modifier key-down with a modifier captured (that key and its name), or a modifier key-up
      that releases the last live modifier with two or more captured (key "" and code 0). */
  lemma RecordingEmits(s: ServiceState, nCode: int, msg: int, vk: int, foregroundWindow: int)
    requires s.recording && nCode >= 0
    ensures var t := TransitionOf(msg);
            var held := Track(s, vk, t == KeyDown).held;
            var step := Callback(s, nCode, msg, vk, foregroundWindow);
            var keyCombo := t == KeyDown && !IsModifierKey(vk) && s.captured.Any();
            var modifierCombo := t == KeyUp && IsModifierKey(vk) && held.NoneHeld() && s.captured.Count() >= 2;
            (keyCombo ==> step.events == [Recorded(RecordedKeyConfig(s.captured, vk), DisplayLabel(s.captured, vk))]
                          && !step.state.recording)
            && (modifierCombo ==> step.events == [Recorded(RecordedModifiersConfig(s.captured), DisplayLabel(s.captured, 0))]
                                  && !step.state.recording)
            && (!keyCombo && !modifierCombo ==> step.events == [] && step.state.recording)
  {
    var t := TransitionOf(msg);
    if !IsModifierKey(vk) {
      assert Track(s, vk, t == KeyDown) == s;
    }
  }

  /** A recorded configuration describes itself: its label reads back as its modifiers and key,
      it has a modifier, its code is no modifier key, its key name is the name of its code, and a
      modifiers-only one (empty key name, code 0) has two or more modifiers. */
  predicate IsCanonicalRecord(config: HotkeyConfig, display: string)
  {
    DecodeLabel(display) == (RequiredOf(config), config.vkCode)
    && RequiredOf(config).Any()
    && !IsModifierKey(config.vkCode)
    && (config.key != "" ==> config.key == GetKeyName(config.vkCode))
    && (config.key == "" ==> config.vkCode == 0 && RequiredOf(config).Count() >= 2)
  }

  lemma KeyComboIsCanonical(captured: Mods, vk: int)
    requires Int32Min <= vk <= Int32Max && captured.Any() && !IsModifierKey(vk)
    ensures IsCanonicalRecord(RecordedKeyConfig(captured, vk), DisplayLabel(captured, vk))
  {
    assert RequiredOf(RecordedKeyConfig(captured, vk)) == captured;
    DecodeDisplayLabel(captured, vk);
  }

  lemma ModifiersComboIsCanonical(captured: Mods)
    requires captured.Count() >= 2
    ensures IsCanonicalRecord(RecordedModifiersConfig(captured), DisplayLabel(captured, 0))
  {
    assert RequiredOf(RecordedModifiersConfig(captured)) == captured;
    DecodeDisplayLabel(captured, 0);
  }

  lemma RecordStepIsCanonical(s: ServiceState, vk: int, t: Transition)
    requires Int32Min <= vk <= Int32Max
    ensures forall e :: e in RecordStep(s, vk, t).events && e.Recorded? ==> IsCanonicalRecord(e.config, e.display)
  {
    if t == KeyDown && !IsModifierKey(vk) && s.captured.Any() {
      KeyComboIsCanonical(s.captured, vk);
    } else if t == KeyUp && IsModifierKey(vk) && s.held.NoneHeld() && s.captured.Count() >= 2 {
      ModifiersComboIsCanonical(s.captured);
    }
  }

  /** Every configuration the hook emits is canonical. */
  lemma RecordedConfigIsCanonical(s: ServiceState, nCode: int, msg: int, vk: int, foregroundWindow: int)
    requires Int32Min <= vk <= Int32Max
    ensures forall e :: e in Callback(s, nCode, msg, vk, foregroundWindow).events && e.Recorded?
              ==> IsCanonicalRecord(e.config, e.display)
  {
    var t := TransitionOf(msg);
    var tracked := Track(s, vk, t == KeyDown);
    var step := Callback(s, nCode, msg, vk, foregroundWindow);
    if nCode >= 0 {
      if tracked.recording {
        assert step == RecordStep(tracked, vk, t);
        RecordStepIsCanonical(tracked, vk, t);
      } else {
        assert step == MatchStep(tracked, vk, t, foregroundWindow);
        MatchStepShape(tracked, vk, t, foregroundWindow);
        assert forall e :: e in step.events ==> !e.Recorded?;
      }
    }
  }

  // ---------------------------------------------------------------- scenarios

  function Down(vk: int): KeyInput { KeyInput(0, WM_KEYDOWN, vk, 0) }
  function Up(vk: int): KeyInput { KeyInput(0, WM_KEYUP, vk, 0) }

  /** A run extended by one input is the run followed by one hook call. */
  lemma RunSnoc(s: ServiceState, inputs: seq<KeyInput>, input: KeyInput)
    ensures var before := Run(s, inputs);
            var step := Callback(before.state, input.nCode, input.msg, input.vk, input.foregroundWindow);
            Run(s, inputs + [input]) == Step(step.state, before.events + step.events, step.verdict)
  {
    assert (inputs + [input])[..|inputs|] == inputs;
  }

  /** Recording Alt then F5 emits Alt+F5 with F5's code; the F5 press is passed on. */
  lemma RecordAltF5()
    ensures var run := Run(StartRecordingSpec(InitialState()), [Down(VK_LALT), Down(0x74)]);
            run.events == [Recorded(HotkeyConfig(false, false, true, false, "F5", 0x74), "Alt+F5")]
            && !run.state.recording && run.verdict == Forward
  {
    var s0 := StartRecordingSpec(InitialState());
    var alt := NoMods.(alt := true);
    RunSnoc(s0, [], Down(VK_LALT));
    assert [] + [Down(VK_LALT)] == [Down(VK_LALT)];
    var s1 := s0.(held := alt, captured := alt);
    assert Run(s0, [Down(VK_LALT)]) == Step(s1, [], Forward);
    RunSnoc(s0, [Down(VK_LALT)], Down(0x74));
    assert [Down(VK_LALT)] + [Down(0x74)] == [Down(VK_LALT), Down(0x74)];
    AltF5Label();
    assert GetKeyName(0x74) == "F5" by { assert NatToString(5) == "5"; }
    assert RecordStep(s1, 0x74, KeyDown).events
           == [Recorded(HotkeyConfig(false, false, true, false, "F5", 0x74), "Alt+F5")];
  }

  /** Recording Ctrl and Win and releasing both emits the modifiers-only Ctrl+Win. */
  lemma RecordCtrlWin()
    ensures var run := Run(StartRecordingSpec(InitialState()),
                           [Down(VK_LCTRL), Down(VK_LWIN), Up(VK_LWIN), Up(VK_LCTRL)]);
            run.events == [Recorded(HotkeyConfig(true, false, false, true, "", 0), "Ctrl+Win")]
            && !run.state.recording
  {
    var s0 := StartRecordingSpec(InitialState());
    var ctrl := NoMods.(ctrl := true);
    var both := ctrl.(win := true);
    RunSnoc(s0, [], Down(VK_LCTRL));
    assert [] + [Down(VK_LCTRL)] == [Down(VK_LCTRL)];
    assert Run(s0, [Down(VK_LCTRL)]) == Step(s0.(held := ctrl, captured := ctrl), [], Forward);
    RunSnoc(s0, [Down(VK_LCTRL)], Down(VK_LWIN));
    assert [Down(VK_LCTRL)] + [Down(VK_LWIN)] == [Down(VK_LCTRL), Down(VK_LWIN)];
    assert Run(s0, [Down(VK_LCTRL), Down(VK_LWIN)]) == Step(s0.(held := both, captured := both), [], Forward);
    RunSnoc(s0, [Down(VK_LCTRL), Down(VK_LWIN)], Up(VK_LWIN));
    assert [Down(VK_LCTRL), Down(VK_LWIN)] + [Up(VK_LWIN)] == [Down(VK_LCTRL), Down(VK_LWIN), Up(VK_LWIN)];
    var s3 := s0.(held := ctrl, captured := both);
    assert Run(s0, [Down(VK_LCTRL), Down(VK_LWIN), Up(VK_LWIN)]) == Step(s3, [], Forward);
    RunSnoc(s0, [Down(VK_LCTRL), Down(VK_LWIN), Up(VK_LWIN)], Up(VK_LCTRL));
    assert [Down(VK_LCTRL), Down(VK_LWIN), Up(VK_LWIN)] + [Up(VK_LCTRL)]
           == [Down(VK_LCTRL), Down(VK_LWIN), Up(VK_LWIN), Up(VK_LCTRL)];
    CtrlWinLabel();
    assert RecordStep(s3.(held := NoMods), VK_LCTRL, KeyUp).events
           == [Recorded(HotkeyConfig(true, false, false, true, "", 0), "Ctrl+Win")];
  }

  /** With the default Win+D hotkey, holding D raises one Pressed and the D release one Released,
      and the D events are swallowed while Win is held. */
  lemma DefaultHotkeyPressAndRelease(fg: int)
    ensures var inputs := [Down(VK_LWIN), KeyInput(0, WM_KEYDOWN, VK_D, fg), Down(VK_D), Up(VK_D)];
            var run := Run(UpdateHotkeySpec(InitialState(), DefaultHotkey()), inputs);
            run.events == [Pressed(fg), Released] && run.verdict == Suppress && !run.state.active
  {
    var s0 := UpdateHotkeySpec(InitialState(), DefaultHotkey());
    var win := NoMods.(win := true);
    var press := KeyInput(0, WM_KEYDOWN, VK_D, fg);
    RunSnoc(s0, [], Down(VK_LWIN));
    assert [] + [Down(VK_LWIN)] == [Down(VK_LWIN)];
    var s1 := s0.(held := win);
    assert Run(s0, [Down(VK_LWIN)]) == Step(s1, [], Forward);
    RunSnoc(s0, [Down(VK_LWIN)], press);
    assert [Down(VK_LWIN)] + [press] == [Down(VK_LWIN), press];
    assert Run(s0, [Down(VK_LWIN), press]) == Step(s1.(active := true), [Pressed(fg)], Suppress);
    RunSnoc(s0, [Down(VK_LWIN), press], Down(VK_D));
    assert [Down(VK_LWIN), press] + [Down(VK_D)] == [Down(VK_LWIN), press, Down(VK_D)];
    assert Run(s0, [Down(VK_LWIN), press, Down(VK_D)]) == Step(s1.(active := true), [Pressed(fg)], Suppress);
    RunSnoc(s0, [Down(VK_LWIN), press, Down(VK_D)], Up(VK_D));
    assert [Down(VK_LWIN), press, Down(VK_D)] + [Up(VK_D)] == [Down(VK_LWIN), press, Down(VK_D), Up(VK_D)];
  }

  // ---------------------------------------------------------------- the service object

  class Win32HotkeyService {
    /** `_ctrlPressed`, `_shiftPressed`, `_altPressed`, `_winPressed`. */
    var pressed: Mods
    var hotkeyActive: bool

    var hotkeyVk: int
    /** `_requireCtrl`, `_requireShift`, `_requireAlt`, `_requireWin`. */
    var require: Mods

    var recordingMode: bool
    /** `_recordCtrl`, `_recordShift`, `_recordAlt`, `_recordWin`. */
    var record: Mods

    /** The Pressed and Released events raised so far. */
    ghost var trace: seq<HotkeyEvent>

    function State(): ServiceState
      reads this
    {
      ServiceState(pressed, hotkeyActive, hotkeyVk, require, recordingMode, record)
    }

    /** The raised Pressed and Released events alternate, and the hotkey is active exactly when
        the last of them was a Pressed. */
    ghost predicate Valid()
      reads this
    {
      Balanced(trace, hotkeyActive)
    }

    constructor ()
      ensures State() == InitialState() && trace == [] && Valid()
    {
      pressed, hotkeyActive := NoMods, false;
      hotkeyVk := 0;
      require := NoMods.(win := true);
      recordingMode, record := false, NoMods;
      trace := [];
    }

    /** `Start` without the hook installation. */
    method Start(config: HotkeyConfig)
      requires Valid()
      modifies this
      ensures State() == UpdateHotkeySpec(old(State()), config) && trace == old(trace) && Valid()
    {
      UpdateHotkey(config);
    }

    method UpdateHotkey(config: HotkeyConfig)
      requires Valid()
      modifies this
      ensures State() == UpdateHotkeySpec(old(State()), config) && trace == old(trace) && Valid()
    {
      require := require.(ctrl := config.ctrl);
      require := require.(shift := config.shift);
      require := require.(alt := config.alt);
      require := require.(win := config.win);
      hotkeyVk := config.vkCode;
    }

    method StartRecording()
      requires Valid()
      modifies this
      ensures State() == StartRecordingSpec(old(State())) && trace == old(trace) && Valid()
    {
      recordingMode := true;
      record := NoMods;
    }

    method CancelRecording()
      requires Valid()
      modifies this
      ensures State() == CancelRecordingSpec(old(State())) && trace == old(trace) && Valid()
    {
      recordingMode := false;
    }

    /** One low-level keyboard event. */
    method HookCallback(nCode: int, msg: int, vkCode: int, foregroundWindow: int)
      returns (verdict: Verdict, events: seq<HotkeyEvent>)
      requires Valid()
      modifies this
      ensures Step(State(), events, verdict) == Callback(old(State()), nCode, msg, vkCode, foregroundWindow)
      ensures trace == old(trace) + MatcherEvents(events) && Valid()
    {
      CallbackKeepsBalance(trace, State(), nCode, msg, vkCode, foregroundWindow);
      if nCode < 0 {
        verdict, events := Forward, [];
        assert trace + MatcherEvents(events) == trace;
        return;
      }
      var transition := TransitionOf(msg);
      TrackModifier(vkCode, transition == KeyDown);
      if recordingMode {
        verdict, events := HandleRecordingMode(vkCode, transition);
      } else {
        verdict, events := HandleHotkeyMode(vkCode, transition, foregroundWindow);
      }
      trace := trace + MatcherEvents(events);
    }

    method TrackModifier(vkCode: int, isKeyDown: bool)
      modifies this`pressed, this`record
      ensures pressed == Track(old(State()), vkCode, isKeyDown).held
      ensures record == Track(old(State()), vkCode, isKeyDown).captured
    {
      if IsWinCode(vkCode) {
        pressed := pressed.(win := isKeyDown);
        if recordingMode && isKeyDown { record := record.(win := true); }
      }
      if IsCtrlCode(vkCode) {
        pressed := pressed.(ctrl := isKeyDown);
        if recordingMode && isKeyDown { record := record.(ctrl := true); }
      }
      if IsShiftCode(vkCode) {
        pressed := pressed.(shift := isKeyDown);
        if recordingMode && isKeyDown { record := record.(shift := true); }
      }
      if IsAltCode(vkCode) {
        pressed := pressed.(alt := isKeyDown);
        if recordingMode && isKeyDown { record := record.(alt := true); }
      }
    }

    method HandleRecordingMode(vkCode: int, transition: Transition) returns (verdict: Verdict, events: seq<HotkeyEvent>)
      modifies this`recordingMode
      ensures recordingMode == RecordStep(old(State()), vkCode, transition).state.recording
      ensures events == RecordStep(old(State()), vkCode, transition).events
      ensures verdict == RecordStep(old(State()), vkCode, transition).verdict
    {
      var isKeyDown := transition == KeyDown;
      var isKeyUp := transition == KeyUp;
      verdict, events := Forward, [];
      if isKeyDown && !IsModifierKey(vkCode) && (record.ctrl || record.shift || record.alt || record.win) {
        var display := BuildDisplayString(vkCode);
        var config := HotkeyConfig(record.ctrl, record.shift, record.alt, record.win, GetKeyName(vkCode), vkCode);
        events := [Recorded(config, display)];
        recordingMode := false;
        if record.win {
          verdict := Suppress;
          return;
        }
      }
      if isKeyUp && IsModifierKey(vkCode) {
        var allReleased := !pressed.ctrl && !pressed.shift && !pressed.alt && !pressed.win;
        var modCount := (if record.ctrl then 1 else 0) + (if record.shift then 1 else 0)
                        + (if record.alt then 1 else 0) + (if record.win then 1 else 0);
        if allReleased && modCount >= 2 {
          var display := BuildDisplayString(0);
          var config := HotkeyConfig(record.ctrl, record.shift, record.alt, record.win, "", 0);
          events := events + [Recorded(config, display)];
          recordingMode := false;
        }
      }
    }

    method HandleHotkeyMode(vkCode: int, transition: Transition, foregroundWindow: int)
      returns (verdict: Verdict, events: seq<HotkeyEvent>)
      modifies this`hotkeyActive
      ensures hotkeyActive == MatchStep(old(State()), vkCode, transition, foregroundWindow).state.active
      ensures events == MatchStep(old(State()), vkCode, transition, foregroundWindow).events
      ensures verdict == MatchStep(old(State()), vkCode, transition, foregroundWindow).verdict
    {
      var isModifierOnly := hotkeyVk == 0;
      if isModifierOnly {
        verdict, events := HandleModifiersOnly(vkCode, transition, foregroundWindow);
      } else {
        verdict, events := HandleKeyHotkey(vkCode, transition, foregroundWindow);
      }
    }

    method HandleModifiersOnly(vkCode: int, transition: Transition, foregroundWindow: int)
      returns (verdict: Verdict, events: seq<HotkeyEvent>)
      modifies this`hotkeyActive
      ensures hotkeyActive == ModifiersOnlyStep(old(State()), vkCode, transition, foregroundWindow).state.active
      ensures events == ModifiersOnlyStep(old(State()), vkCode, transition, foregroundWindow).events
      ensures verdict == ModifiersOnlyStep(old(State()), vkCode, transition, foregroundWindow).verdict
    {
      var isKeyDown := transition == KeyDown;
      var isKeyUp := transition == KeyUp;
      verdict, events := Forward, [];
      var allMods := ModifiersMatch(require, pressed);
      if isKeyDown && IsModifierKey(vkCode) && allMods && !hotkeyActive {
        hotkeyActive := true;
        events := events + [Pressed(foregroundWindow)];
      }
      if isKeyUp && hotkeyActive && IsModifierKey(vkCode) && ModifierMissing(require, pressed) {
        hotkeyActive := false;
        events := events + [Released];
      }
    }

    method HandleKeyHotkey(vkCode: int, transition: Transition, foregroundWindow: int)
      returns (verdict: Verdict, events: seq<HotkeyEvent>)
      modifies this`hotkeyActive
      ensures hotkeyActive == KeyHotkeyStep(old(State()), vkCode, transition, foregroundWindow).state.active
      ensures events == KeyHotkeyStep(old(State()), vkCode, transition, foregroundWindow).events
      ensures verdict == KeyHotkeyStep(old(State()), vkCode, transition, foregroundWindow).verdict
    {
      var isKeyDown := transition == KeyDown;
      var isKeyUp := transition == KeyUp;
      verdict, events := Forward, [];
      if isKeyUp && hotkeyActive && ModifierMissing(require, pressed) {
        hotkeyActive := false;
        events := events + [Released];
      }
      if vkCode == hotkeyVk {
        var allMods := ModifiersMatch(require, pressed);
        var anyMod := require.ctrl || require.shift || require.alt || require.win;
        if isKeyDown && allMods && anyMod && !hotkeyActive {
          hotkeyActive := true;
          events := events + [Pressed(foregroundWindow)];
          if require.win {
            verdict := Suppress;
            return;
          }
        } else if isKeyUp && hotkeyActive {
          hotkeyActive := false;
          events := events + [Released];
          if require.win {
            verdict := Suppress;
            return;
          }
        } else if pressed.win && require.win {
          verdict := Suppress;
          return;
        }
      }
    }

    /** The captured modifiers' names and, unless vk is 0, the key name, joined with "+". */
    method BuildDisplayString(vkCode: int) returns (display: string)
      ensures display == DisplayLabel(State().captured, vkCode)
    {
      var parts: seq<string> := [];
      if record.ctrl { parts := parts + ["Ctrl"]; }
      assert parts == (if record.ctrl then ["Ctrl"] else []);
      if record.shift { parts := parts + ["Shift"]; }
      assert parts == (if record.ctrl then ["Ctrl"] else []) + (if record.shift then ["Shift"] else []);
      if record.alt { parts := parts + ["Alt"]; }
      if record.win { parts := parts + ["Win"]; }
      assert parts == ModifierLabels(record);
      if vkCode != 0 { parts := parts + [GetKeyName(vkCode)]; }
      assert parts == LabelParts(record, vkCode);
      display := Join("+", parts);
    }
  }
}

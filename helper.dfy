/** The helper process: a second copy of the keyboard hook that runs outside the desktop
    application and talks to the Electron shell in text lines. The shell sends `setkey:c,s,a,w,vk`,
    `record`, `cancelrecord` and `quit`; the helper sends `keydown`, `keyup` and
    `recorded:c,s,a,w,vk,combo`.

    The helper keeps the same state as the service (`ServiceState`) and tracks modifiers the same
    way (`Track`). It differs in one place: the event that completes a recording is then also
    matched against the hotkey, because recording mode is already off when the matcher looks.
    Its key-name and modifier-key tables are the service's (`GetKeyName`, `IsModifierKey`). */
module Helper {
  import opened Wrappers
  import opened Text
  import opened Keys
  import opened KeyNames
  import opened Models
  import opened HotkeyService

  const KeyDownMessage: string := "keydown"
  const KeyUpMessage: string := "keyup"
  const RecordedPrefix: string := "recorded:"
  const SetKeyPrefix: string := "setkey:"

  /** What one hook call does in the helper: the next state, the lines sent, and the verdict. */
  datatype HelperStep = HelperStep(state: ServiceState, sent: seq<string>, verdict: Verdict)

  // ---------------------------------------------------------------- start-up and commands

  /** The field initialisers: nothing held, Win+D, not recording. */
  function HelperInitialState(): (s: ServiceState)
    ensures s.required == RequiredOf(DefaultHotkey()) && s.hotkeyVk == DefaultHotkey().vkCode
    ensures !s.active && !s.recording && s.held.NoneHeld() && s.captured.NoneHeld()
  {
    ServiceState(NoMods, false, VK_D, NoMods.(win := true), false, NoMods)
  }

  /** `Main`: a first command-line argument that parses as an integer replaces the key code. */
  function StartupState(args: seq<string>): (s: ServiceState)
    ensures s == HelperInitialState().(hotkeyVk := s.hotkeyVk)
    ensures |args| > 0 && TryParseInt32(args[0]).Some? ==> s.hotkeyVk == TryParseInt32(args[0]).value
    ensures (|args| == 0 || TryParseInt32(args[0]).None?) ==> s.hotkeyVk == VK_D
  {
    var s := HelperInitialState();
    if |args| > 0 && TryParseInt32(args[0]).Some? then s.(hotkeyVk := TryParseInt32(args[0]).value) else s
  }

  /** The fields of a `setkey:` line (after the prefix): with at least five fields, each flag is
      set exactly when its field is "1", and the key code is replaced only when the fifth field
      parses; with fewer fields nothing changes. */
  function SetKey(s: ServiceState, fields: string): ServiceState
  {
    var parts := Split(fields, ',');
    if |parts| >= 5 then
      var vk := TryParseInt32(parts[4]);
      s.(required := Mods(parts[0] == "1", parts[1] == "1", parts[2] == "1", parts[3] == "1"),
         hotkeyVk := if vk.Some? then vk.value else s.hotkeyVk)
    else s
  }

  /** `ProcessMessage`, for its effect on the hook state. */
  function ProcessMessageSpec(s: ServiceState, message: string): ServiceState
  {
    if StartsWith(message, SetKeyPrefix) then SetKey(s, message[|SetKeyPrefix|..])
    else if message == "record" then s.(recording := true, captured := NoMods)
    else if message == "cancelrecord" then s.(recording := false)
    else s
  }

  /** A `setkey:` line sets the four required flags from its first four fields and takes the key
      code from the fifth when it parses, keeping the old code otherwise; nothing else changes. */
  lemma SetKeyFields(s: ServiceState, fields: string)
    ensures var parts := Split(fields, ',');
            var r := ProcessMessageSpec(s, SetKeyPrefix + fields);
            (|parts| < 5 ==> r == s)
            && (|parts| >= 5 ==>
                  r == s.(required := r.required, hotkeyVk := r.hotkeyVk)
                  && (r.required.ctrl <==> parts[0] == "1") && (r.required.shift <==> parts[1] == "1")
                  && (r.required.alt <==> parts[2] == "1") && (r.required.win <==> parts[3] == "1")
                  && r.hotkeyVk == TryParseInt32(parts[4]).GetOr(s.hotkeyVk))
  {
    var message := SetKeyPrefix + fields;
    assert StartsWith(message, SetKeyPrefix);
    assert message[|SetKeyPrefix|..] == fields;
  }

  /** `record` and `cancelrecord` do what the service's StartRecording and CancelRecording do. */
  lemma RecordCommandsMatchService(s: ServiceState)
    ensures ProcessMessageSpec(s, "record") == StartRecordingSpec(s)
    ensures ProcessMessageSpec(s, "cancelrecord") == CancelRecordingSpec(s)
  {
    assert !StartsWith("record", SetKeyPrefix) by { assert "record"[0] != 's'; }
    assert !StartsWith("cancelrecord", SetKeyPrefix) by { assert "cancelrecord"[0] != 's'; }
  }

  /** Any other line (`quit`, `connected`, an unknown word) leaves the hook state alone. */
  lemma OtherMessagesChangeNothing(s: ServiceState, message: string)
    requires !StartsWith(message, SetKeyPrefix) && message != "record" && message != "cancelrecord"
    ensures ProcessMessageSpec(s, message) == s
  {
  }

  // ---------------------------------------------------------------- the recorded line

  function Flag(b: bool): string { if b then "1" else "0" }

  /** `recorded:c,s,a,w,vk,combo` with 1/0 flags. */
  function RecordedLine(flags: Mods, vk: int, combo: string): (line: string)
    ensures StartsWith(line, RecordedPrefix)
  {
    RecordedPrefix + Flag(flags.ctrl) + "," + Flag(flags.shift) + "," + Flag(flags.alt) + ","
    + Flag(flags.win) + "," + IntToString(vk) + "," + combo
  }

  /** The helper's text for a key combination: the captured modifiers and the key name. Unlike
      the service's label, the key name is added even for key code 0. */
  function KeyCombo(captured: Mods, vk: int): string
  {
    Join("+", ModifierLabels(captured) + [GetKeyName(vk)])
  }

  /** The helper's text for a modifiers-only combination. */
  function ModifiersCombo(captured: Mods): string
  {
    Join("+", ModifierLabels(captured))
  }

  /** For every key a hook can report (code not 0), the helper's combination text is the
      service's display label, and so it is for modifiers-only combinations. */
  lemma CombosAreDisplayLabels(captured: Mods, vk: int)
    ensures vk != 0 ==> KeyCombo(captured, vk) == DisplayLabel(captured, vk)
    ensures ModifiersCombo(captured) == DisplayLabel(captured, 0)
  {
    assert LabelParts(captured, 0) == ModifierLabels(captured);
  }

  /** What the helper sends for each event the service raises. */
  function WireMessage(e: HotkeyEvent): string
  {
    match e
    case Pressed(_) => KeyDownMessage
    case Released => KeyUpMessage
    case Recorded(config, display) => RecordedLine(RequiredOf(config), config.vkCode, display)
  }

  function Wire(events: seq<HotkeyEvent>): (lines: seq<string>)
    ensures |lines| == |events|
    ensures forall i :: 0 <= i < |events| ==> lines[i] == WireMessage(events[i])
  {
    seq(|events|, i requires 0 <= i < |events| => WireMessage(events[i]))
  }

  function WireStep(step: Step): HelperStep
  {
    HelperStep(step.state, Wire(step.events), step.verdict)
  }

  // ---------------------------------------------------------------- the hook

  /** The recording block of `HookCallback`, on the state after tracking: a non-modifier key-down
      with a captured modifier sends the key combination and is swallowed when Win was captured;
      a modifier key-up with all modifiers up and two or more captured sends the modifiers-only
      combination with key code 0. Either one ends recording mode. */
  function HelperRecordStep(s: ServiceState, vk: int, t: Transition): (step: HelperStep)
    ensures step.state == s.(recording := step.state.recording)
  {
    if t == KeyDown && !IsModifierKey(vk) && s.captured.Any() then
      HelperStep(s.(recording := false), [RecordedLine(s.captured, vk, KeyCombo(s.captured, vk))],
                 if s.captured.win then Suppress else Forward)
    else if t == KeyUp && IsModifierKey(vk) && s.held.NoneHeld() && s.captured.Count() >= 2 then
      HelperStep(s.(recording := false), [RecordedLine(s.captured, 0, ModifiersCombo(s.captured))], Forward)
    else HelperStep(s, [], Forward)
  }

  /** The normal hotkey block of `HookCallback` for a modifiers-only hotkey: two separate checks,
      a press on a modifier key-down and a release on a modifier key-up. */
  function HelperModifiersOnlyStep(s: ServiceState, vk: int, t: Transition): (step: HelperStep)
    ensures step.state == s.(active := step.state.active)
  {
    var pressNow := t == KeyDown && IsModifierKey(vk) && ModifiersMatch(s.required, s.held) && !s.active;
    var s1 := if pressNow then s.(active := true) else s;
    var sent1 := if pressNow then [KeyDownMessage] else [];
    var releaseNow := t == KeyUp && s1.active && IsModifierKey(vk) && ModifierMissing(s.required, s.held);
    HelperStep(if releaseNow then s1.(active := false) else s1,
               sent1 + (if releaseNow then [KeyUpMessage] else []), Forward)
  }

  /** The normal hotkey block for a hotkey with a key: a key-up that breaks the modifiers releases
      first; then the configured key presses, releases, or is swallowed while Win is held. */
  function HelperKeyHotkeyStep(s: ServiceState, vk: int, t: Transition): (step: HelperStep)
    ensures step.state == s.(active := step.state.active)
  {
    var releaseEarly := t == KeyUp && s.active && ModifierMissing(s.required, s.held);
    var s1 := if releaseEarly then s.(active := false) else s;
    var sent1 := if releaseEarly then [KeyUpMessage] else [];
    if vk == s.hotkeyVk then
      if t == KeyDown && ModifiersMatch(s.required, s.held) && s.required.Any() && !s1.active then
        HelperStep(s1.(active := true), sent1 + [KeyDownMessage], if s.required.win then Suppress else Forward)
      else if t == KeyUp && s1.active then
        HelperStep(s1.(active := false), sent1 + [KeyUpMessage], if s.required.win then Suppress else Forward)
      else if s.held.win && s.required.win then HelperStep(s1, sent1, Suppress)
      else HelperStep(s1, sent1, Forward)
    else HelperStep(s1, sent1, Forward)
  }

  function HelperMatchStep(s: ServiceState, vk: int, t: Transition): (step: HelperStep)
    ensures step.state == s.(active := step.state.active)
  {
    if s.hotkeyVk == 0 then HelperModifiersOnlyStep(s, vk, t) else HelperKeyHotkeyStep(s, vk, t)
  }

  /** `HookCallback`: a negative hook code is passed on; otherwise the modifiers are tracked, the
      recording block runs while recording, and the matcher runs whenever recording mode is off
      afterwards, which includes the event that has just completed a recording. */
  function HelperCallback(s: ServiceState, nCode: int, msg: int, vk: int): (step: HelperStep)
    ensures nCode < 0 ==> step == HelperStep(s, [], Forward)
    ensures step.state.required == s.required && step.state.hotkeyVk == s.hotkeyVk
  {
    if nCode < 0 then HelperStep(s, [], Forward)
    else
      var t := TransitionOf(msg);
      var tracked := Track(s, vk, t == KeyDown);
      if tracked.recording then RecordingStep(tracked, vk, t) else HelperMatchStep(tracked, vk, t)
  }

  /** While recording: the recording block, and then the matcher unless the block swallowed the
      event or is still recording. */
  function RecordingStep(s: ServiceState, vk: int, t: Transition): (step: HelperStep)
  {
    var rec := HelperRecordStep(s, vk, t);
    if rec.verdict == Suppress || rec.state.recording then rec
    else
      var m := HelperMatchStep(rec.state, vk, t);
      HelperStep(m.state, rec.sent + m.sent, m.verdict)
  }

  // ---------------------------------------------------------------- agreement with the service

  /** The helper's matcher is the service's matcher, with Pressed sent as `keydown` and Released
      as `keyup` (the helper does not report the foreground window). */
  lemma MatchMirrorsService(s: ServiceState, vk: int, t: Transition, foregroundWindow: int)
    ensures HelperMatchStep(s, vk, t) == WireStep(MatchStep(s, vk, t, foregroundWindow))
  {
    if s.hotkeyVk == 0 {
      ModifiersOnlyMirrorsService(s, vk, t, foregroundWindow);
    } else {
      KeyHotkeyMirrorsService(s, vk, t, foregroundWindow);
    }
  }

  lemma ModifiersOnlyMirrorsService(s: ServiceState, vk: int, t: Transition, foregroundWindow: int)
    ensures HelperModifiersOnlyStep(s, vk, t) == WireStep(ModifiersOnlyStep(s, vk, t, foregroundWindow))
  {
    var step := ModifiersOnlyStep(s, vk, t, foregroundWindow);
    assert Wire([]) == [];
    assert Wire([Pressed(foregroundWindow)]) == [KeyDownMessage];
    assert Wire([Released]) == [KeyUpMessage];
  }

  lemma KeyHotkeyMirrorsService(s: ServiceState, vk: int, t: Transition, foregroundWindow: int)
    ensures HelperKeyHotkeyStep(s, vk, t) == WireStep(KeyHotkeyStep(s, vk, t, foregroundWindow))
  {
    var step := KeyHotkeyStep(s, vk, t, foregroundWindow);
    assert Wire([]) == [];
    assert Wire([Pressed(foregroundWindow)]) == [KeyDownMessage];
    assert Wire([Released]) == [KeyUpMessage];
    assert Wire([Released, Pressed(foregroundWindow)]) == [KeyUpMessage, KeyDownMessage];
    assert Wire([Released, Released]) == [KeyUpMessage, KeyUpMessage];
  }

  /** Outside recording, a helper hook call does exactly what the service's does. */
  lemma CallbackMirrorsService(s: ServiceState, nCode: int, msg: int, vk: int, foregroundWindow: int)
    requires !s.recording
    ensures HelperCallback(s, nCode, msg, vk) == WireStep(Callback(s, nCode, msg, vk, foregroundWindow))
  {
    if nCode >= 0 {
      var t := TransitionOf(msg);
      MatchMirrorsService(Track(s, vk, t == KeyDown), vk, t, foregroundWindow);
    }
  }

  /** The recording block agrees with the service's for every key a hook reports (code not 0):
      same guards, same state, and the service's Recorded event written as a `recorded:` line. */
  lemma RecordMirrorsService(s: ServiceState, vk: int, t: Transition)
    requires vk != 0
    ensures HelperRecordStep(s, vk, t) == WireStep(RecordStep(s, vk, t))
  {
    CombosAreDisplayLabels(s.captured, vk);
    if t == KeyDown && !IsModifierKey(vk) && s.captured.Any() {
      KeyComboWire(s.captured, vk);
    } else if t == KeyUp && IsModifierKey(vk) && s.held.NoneHeld() && s.captured.Count() >= 2 {
      ModifiersComboWire(s.captured);
    }
  }

  lemma KeyComboWire(captured: Mods, vk: int)
    requires vk != 0
    ensures Wire([Recorded(RecordedKeyConfig(captured, vk), DisplayLabel(captured, vk))])
            == [RecordedLine(captured, vk, KeyCombo(captured, vk))]
  {
    CombosAreDisplayLabels(captured, vk);
    assert RequiredOf(RecordedKeyConfig(captured, vk)) == captured;
  }

  lemma ModifiersComboWire(captured: Mods)
    ensures Wire([Recorded(RecordedModifiersConfig(captured), DisplayLabel(captured, 0))])
            == [RecordedLine(captured, 0, ModifiersCombo(captured))]
  {
    CombosAreDisplayLabels(captured, 0);
    assert RequiredOf(RecordedModifiersConfig(captured)) == captured;
  }

  /** While recording, the helper does what the service does, except that after a recording that
      ends without Win captured the same event goes on to the matcher. */
  lemma RecordingFallsThrough(s: ServiceState, nCode: int, msg: int, vk: int, foregroundWindow: int)
    requires nCode >= 0 && s.recording && vk != 0
    ensures var c := Callback(s, nCode, msg, vk, foregroundWindow);
            var h := HelperCallback(s, nCode, msg, vk);
            if c.state.recording || c.verdict == Suppress then h == WireStep(c)
            else
              var m := WireStep(MatchStep(c.state, vk, TransitionOf(msg), foregroundWindow));
              h == HelperStep(m.state, Wire(c.events) + m.sent, m.verdict)
  {
    var t := TransitionOf(msg);
    var tracked := Track(s, vk, t == KeyDown);
    RecordMirrorsService(tracked, vk, t);
    MatchMirrorsService(RecordStep(tracked, vk, t).state, vk, t, foregroundWindow);
  }

  /** A concrete event on which the two differ: with Ctrl+D configured and Ctrl captured,
      pressing D records Ctrl+D and, in the helper only, also presses the hotkey. */
  lemma RecordThenPressExample()
    ensures var s := ServiceState(NoMods.(ctrl := true), false, VK_D, NoMods.(ctrl := true), true, NoMods.(ctrl := true));
            HelperCallback(s, 0, WM_KEYDOWN, VK_D).sent == ["recorded:1,0,0,0,68,Ctrl+D", KeyDownMessage]
            && Callback(s, 0, WM_KEYDOWN, VK_D, 7).events
               == [Recorded(HotkeyConfig(true, false, false, false, "D", VK_D), "Ctrl+D")]
  {
    var ctrl := NoMods.(ctrl := true);
    var s := ServiceState(ctrl, false, VK_D, ctrl, true, ctrl);
    assert Track(s, VK_D, true) == s;
    CtrlDLabel();
    var rec := HelperRecordStep(s, VK_D, KeyDown);
    assert rec.sent == [RecordedLine(ctrl, VK_D, "Ctrl+D")];
    CtrlDRecordedLine();
    assert rec.state == s.(recording := false) && rec.verdict == Forward;
    var m := HelperKeyHotkeyStep(rec.state, VK_D, KeyDown);
    assert m.sent == [KeyDownMessage];
    assert RecordingStep(s, VK_D, KeyDown).sent == rec.sent + m.sent;
    assert HelperCallback(s, 0, WM_KEYDOWN, VK_D) == RecordingStep(s, VK_D, KeyDown);
    assert rec.sent + m.sent == ["recorded:1,0,0,0,68,Ctrl+D", KeyDownMessage];
    assert RecordStep(s, VK_D, KeyDown).events
           == [Recorded(HotkeyConfig(true, false, false, false, "D", VK_D), "Ctrl+D")];
  }

  /** The line the helper sends for a recorded Ctrl+D. */
  lemma CtrlDRecordedLine()
    ensures RecordedLine(NoMods.(ctrl := true), VK_D, "Ctrl+D") == "recorded:1,0,0,0,68,Ctrl+D"
  {
    assert IntToString(VK_D) == "68" by {
      assert NatToString(68) == NatToString(6) + [DigitChar(8)];
    }
    assert RecordedLine(NoMods.(ctrl := true), VK_D, "Ctrl+D")
           == "recorded:" + "1" + "," + "0" + "," + "0" + "," + "0" + "," + "68" + "," + "Ctrl+D";
  }

  /** The helper's text and the service's label for Ctrl+D. */
  lemma CtrlDLabel()
    ensures KeyCombo(NoMods.(ctrl := true), VK_D) == "Ctrl+D"
    ensures DisplayLabel(NoMods.(ctrl := true), VK_D) == "Ctrl+D"
  {
    var ctrl := NoMods.(ctrl := true);
    assert ModifierLabels(ctrl) == ["Ctrl"];
    assert GetKeyName(VK_D) == "D";
    assert LabelParts(ctrl, VK_D) == ["Ctrl", "D"];
    LabelOfTwo(ctrl, VK_D, "Ctrl", "D");
    CombosAreDisplayLabels(ctrl, VK_D);
  }

  // ---------------------------------------------------------------- keydown/keyup alternation

  predicate IsSignal(line: string) { line == KeyDownMessage || line == KeyUpMessage }

  /** The `keydown` and `keyup` lines of a sequence, in order. */
  function Signals(lines: seq<string>): (r: seq<string>)
    ensures |r| <= |lines|
  {
    if |lines| == 0 then []
    else Signals(lines[..|lines| - 1]) + (if IsSignal(lines[|lines| - 1]) then [lines[|lines| - 1]] else [])
  }

  lemma {:induction false} SignalsAppend(a: seq<string>, b: seq<string>)
    ensures Signals(a + b) == Signals(a) + Signals(b)
    decreases |b|
  {
    if |b| == 0 {
      assert a + b == a;
    } else {
      assert (a + b)[..|a + b| - 1] == a + b[..|b| - 1];
      SignalsAppend(a, b[..|b| - 1]);
    }
  }

  /** `keydown` and `keyup` alternate, starting with `keydown`, and the hotkey is pressed exactly
      when the last one was a `keydown`. */
  predicate SignalsBalanced(trace: seq<string>, active: bool)
  {
    (forall i :: 0 <= i < |trace| ==> (trace[i] == KeyDownMessage <==> i % 2 == 0) && (trace[i] == KeyUpMessage <==> i % 2 == 1))
    && (active <==> |trace| % 2 == 1)
  }

  predicate SignalShape(signals: seq<string>, active: bool, active': bool)
  {
    (signals == [] && active' == active) || (signals == [KeyDownMessage] && !active && active')
    || (signals == [KeyUpMessage] && active && !active')
  }

  lemma MatchSignalShape(s: ServiceState, vk: int, t: Transition)
    ensures var m := HelperMatchStep(s, vk, t);
            SignalShape(m.sent, s.active, m.state.active) && Signals(m.sent) == m.sent
  {
    MatchMirrorsService(s, vk, t, 0);
    MatchStepShape(s, vk, t, 0);
    var m := HelperMatchStep(s, vk, t);
    if |m.sent| == 1 {
      assert m.sent[..0] == [];
    }
  }

  lemma RecordSignals(s: ServiceState, vk: int, t: Transition)
    ensures Signals(HelperRecordStep(s, vk, t).sent) == []
  {
    var sent := HelperRecordStep(s, vk, t).sent;
    if |sent| == 1 {
      assert sent[..0] == [];
      assert sent[0][0] == 'r';
    }
  }

  /** One hook call sends at most one `keydown` or `keyup`: a `keydown` only from released to
      pressed, a `keyup` only from pressed to released. */
  lemma CallbackSignalShape(s: ServiceState, nCode: int, msg: int, vk: int)
    ensures var h := HelperCallback(s, nCode, msg, vk);
            SignalShape(Signals(h.sent), s.active, h.state.active)
  {
    if nCode >= 0 {
      var t := TransitionOf(msg);
      var tracked := Track(s, vk, t == KeyDown);
      if tracked.recording {
        var rec := HelperRecordStep(tracked, vk, t);
        RecordSignals(tracked, vk, t);
        if !(rec.verdict == Suppress || rec.state.recording) {
          MatchSignalShape(rec.state, vk, t);
          SignalsAppend(rec.sent, HelperMatchStep(rec.state, vk, t).sent);
        }
      } else {
        MatchSignalShape(tracked, vk, t);
      }
    } else {
      assert Signals([]) == [];
    }
  }

  lemma SignalsBalancedAppend(trace: seq<string>, active: bool, signals: seq<string>, active': bool)
    requires SignalsBalanced(trace, active) && SignalShape(signals, active, active')
    ensures SignalsBalanced(trace + signals, active')
  {
    var next := trace + signals;
    if signals != [] {
      assert next[|trace|] == signals[0];
      assert forall i :: 0 <= i < |trace| ==> next[i] == trace[i];
    } else {
      assert next == trace;
    }
  }

  /** Each hook call keeps the `keydown`/`keyup` lines balanced against the pressed flag. */
  lemma CallbackKeepsSignalsBalanced(trace: seq<string>, s: ServiceState, nCode: int, msg: int, vk: int)
    requires SignalsBalanced(trace, s.active)
    ensures var h := HelperCallback(s, nCode, msg, vk);
            SignalsBalanced(trace + Signals(h.sent), h.state.active)
  {
    CallbackSignalShape(s, nCode, msg, vk);
    var h := HelperCallback(s, nCode, msg, vk);
    SignalsBalancedAppend(trace, s.active, Signals(h.sent), h.state.active);
  }

  // ---------------------------------------------------------------- the helper's static state

  /** The helper's static fields. The live, required and recorded modifier flags
      (`_ctrlPressed`…, `_requireCtrl`…, `_recordCtrl`…) are held as three `Mods` records. */
  class WhisperHelper {
    var pressed: Mods
    var hotkeyPressed: bool
    var hotkeyVk: int
    var require: Mods
    var recordingMode: bool
    var record: Mods
    /** Every `keydown`/`keyup` line sent so far. */
    ghost var signals: seq<string>

    function State(): ServiceState
      reads this
    {
      ServiceState(pressed, hotkeyPressed, hotkeyVk, require, recordingMode, record)
    }

    ghost predicate Valid()
      reads this
    {
      SignalsBalanced(signals, hotkeyPressed)
    }

    /** The field initialisers followed by the argument handling of `Main`. */
    constructor (args: seq<string>)
      ensures State() == StartupState(args) && signals == [] && Valid()
    {
      pressed, hotkeyPressed, hotkeyVk := NoMods, false, VK_D;
      require, recordingMode, record := NoMods.(win := true), false, NoMods;
      signals := [];
      if |args| > 0 {
        var vk := TryParseInt32(args[0]);
        if vk.Some? {
          hotkeyVk := vk.value;
        }
      }
    }

    /** `ProcessMessage` on one trimmed line; `quit` asks the process to exit. */
    method ProcessMessage(message: string) returns (quit: bool)
      requires Valid()
      modifies this
      ensures State() == ProcessMessageSpec(old(State()), message)
      ensures quit <==> message == "quit"
      ensures signals == old(signals) && Valid()
    {
      quit := false;
      if StartsWith(message, SetKeyPrefix) {
        var parts := Split(message[|SetKeyPrefix|..], ',');
        if |parts| >= 5 {
          require := require.(ctrl := parts[0] == "1");
          require := require.(shift := parts[1] == "1");
          require := require.(alt := parts[2] == "1");
          require := require.(win := parts[3] == "1");
          var vk := TryParseInt32(parts[4]);
          if vk.Some? {
            hotkeyVk := vk.value;
          }
        }
      } else if message == "record" {
        recordingMode := true;
        record := NoMods;
      } else if message == "cancelrecord" {
        recordingMode := false;
      } else if message == "quit" {
        quit := true;
      }
    }

    /** `HookCallback`: the lines sent to the shell, in order, and the verdict. */
    method HookCallback(nCode: int, msg: int, vkCode: int) returns (verdict: Verdict, sent: seq<string>)
      requires Valid()
      modifies this
      ensures HelperStep(State(), sent, verdict) == HelperCallback(old(State()), nCode, msg, vkCode)
      ensures signals == old(signals) + Signals(sent) && Valid()
    {
      CallbackKeepsSignalsBalanced(signals, State(), nCode, msg, vkCode);
      if nCode < 0 {
        verdict, sent := Forward, [];
        assert signals + Signals(sent) == signals;
        return;
      }
      var transition := TransitionOf(msg);
      ghost var before := State();
      TrackModifiers(vkCode, transition == KeyDown);
      ghost var tracked := State();
      assert tracked == Track(before, vkCode, transition == KeyDown);
      if recordingMode {
        verdict, sent := RecordThenMatch(vkCode, transition);
      } else {
        verdict, sent := HandleMatching(vkCode, transition);
      }
      signals := signals + Signals(sent);
    }

    /** The four modifier checks at the top of `HookCallback`. */
    method TrackModifiers(vkCode: int, isKeyDown: bool)
      modifies this`pressed, this`record
      ensures pressed == Track(old(State()), vkCode, isKeyDown).held
      ensures record == Track(old(State()), vkCode, isKeyDown).captured
    {
      if IsWinCode(vkCode) {
        pressed := pressed.(win := isKeyDown);
        if recordingMode && isKeyDown { record := record.(win := true); }
      }
      if IsCtrlCode(vkCode) {
        pressed := pressed.(ctrl := isKeyDown);
        if recordingMode && isKeyDown { record := record.(ctrl := true); }
      }
      if IsShiftCode(vkCode) {
        pressed := pressed.(shift := isKeyDown);
        if recordingMode && isKeyDown { record := record.(shift := true); }
      }
      if IsAltCode(vkCode) {
        pressed := pressed.(alt := isKeyDown);
        if recordingMode && isKeyDown { record := record.(alt := true); }
      }
    }

    /** The recording block and, when it lets the event through with recording over, the
        normal hotkey block. */
    method RecordThenMatch(vkCode: int, transition: Transition) returns (verdict: Verdict, sent: seq<string>)
      modifies this`recordingMode, this`hotkeyPressed
      ensures var step := RecordingStep(old(State()), vkCode, transition);
              State() == step.state && sent == step.sent && verdict == step.verdict
    {
      ghost var rec := HelperRecordStep(State(), vkCode, transition);
      verdict, sent := HandleRecording(vkCode, transition);
      assert State() == rec.state;
      if verdict == Forward && !recordingMode {
        ghost var m := HelperMatchStep(rec.state, vkCode, transition);
        var more;
        verdict, more := HandleMatching(vkCode, transition);
        assert State() == m.state;
        sent := sent + more;
      }
    }

    /** The recording block of `HookCallback`. */
    method HandleRecording(vkCode: int, transition: Transition) returns (verdict: Verdict, sent: seq<string>)
      modifies this`recordingMode
      ensures var step := HelperRecordStep(old(State()), vkCode, transition);
              recordingMode == step.state.recording && sent == step.sent && verdict == step.verdict
    {
      verdict, sent := Forward, [];
      if transition == KeyDown && !IsModifierKey(vkCode) {
        if record.ctrl || record.shift || record.alt || record.win {
          sent := [RecordedLine(record, vkCode, KeyCombo(record, vkCode))];
          recordingMode := false;
          if record.win {
            verdict := Suppress;
            return;
          }
        }
      }
      if transition == KeyUp && IsModifierKey(vkCode) {
        var allReleased := !pressed.ctrl && !pressed.shift && !pressed.alt && !pressed.win;
        var recordedModCount := (if record.ctrl then 1 else 0) + (if record.shift then 1 else 0)
                                + (if record.alt then 1 else 0) + (if record.win then 1 else 0);
        if allReleased && recordedModCount >= 2 {
          sent := [RecordedLine(record, 0, ModifiersCombo(record))];
          recordingMode := false;
        }
      }
    }

    /** The normal hotkey block of `HookCallback`. */
    method HandleMatching(vkCode: int, transition: Transition) returns (verdict: Verdict, sent: seq<string>)
      modifies this`hotkeyPressed
      ensures hotkeyPressed == HelperMatchStep(old(State()), vkCode, transition).state.active
      ensures sent == HelperMatchStep(old(State()), vkCode, transition).sent
      ensures verdict == HelperMatchStep(old(State()), vkCode, transition).verdict
    {
      if hotkeyVk == 0 {
        verdict, sent := Forward, [];
        var allModsPressed := ModifiersMatch(require, pressed);
        if transition == KeyDown && IsModifierKey(vkCode) && allModsPressed && !hotkeyPressed {
          hotkeyPressed := true;
          sent := sent + [KeyDownMessage];
        }
        if transition == KeyUp && hotkeyPressed && IsModifierKey(vkCode) {
          var missingMod := ModifierMissing(require, pressed);
          if missingMod {
            hotkeyPressed := false;
            sent := sent + [KeyUpMessage];
          }
        }
      } else {
        verdict, sent := MatchKeyHotkey(vkCode, transition);
      }
    }

    /** The key-mode half of the normal hotkey block. */
    method MatchKeyHotkey(vkCode: int, transition: Transition) returns (verdict: Verdict, sent: seq<string>)
      requires hotkeyVk != 0
      modifies this`hotkeyPressed
      ensures hotkeyPressed == HelperKeyHotkeyStep(old(State()), vkCode, transition).state.active
      ensures sent == HelperKeyHotkeyStep(old(State()), vkCode, transition).sent
      ensures verdict == HelperKeyHotkeyStep(old(State()), vkCode, transition).verdict
    {
      verdict, sent := Forward, [];
      var missingMod := ModifierMissing(require, pressed);
      if transition == KeyUp && hotkeyPressed && missingMod {
        hotkeyPressed := false;
        sent := sent + [KeyUpMessage];
      }
      if vkCode == hotkeyVk {
        var allModsPressed := ModifiersMatch(require, pressed);
        var anyModRequired := require.ctrl || require.shift || require.alt || require.win;
        if transition == KeyDown && allModsPressed && anyModRequired && !hotkeyPressed {
          hotkeyPressed := true;
          sent := sent + [KeyDownMessage];
          if require.win { verdict := Suppress; }
        } else if transition == KeyUp && hotkeyPressed {
          hotkeyPressed := false;
          sent := sent + [KeyUpMessage];
          if require.win { verdict := Suppress; }
        } else if pressed.win && require.win {
          verdict := Suppress;
        }
      }
    }
  }
}

/** The Electron shell's own hotkey handling: the global key hook's key-down and key-up handlers
    with their `keysPressed` flags and the `hotkeyTriggered` latch, `startRecording` and
    `stopRecording`, and the `keydown`/`keyup` lines the helper sends. The key hook itself, the
    renderer window and the floating bar are left out; what the shell sends to the renderer is
    kept as a trace of messages. The uiohook key codes of the modifier keys and the code
    `getKeyCode` gives for the configured key come from a table outside the shell and are inputs. */
module PushToTalk {
  import opened Wrappers
  import Dictation

  /** The messages `startRecording` and `stopRecording` send to the renderer. */
  datatype RendererMessage = StartRecordingMessage | StopRecordingMessage

  /** The uiohook codes of the left and right Ctrl, Shift and Alt keys. */
  datatype ModifierCodes = ModifierCodes(
    ctrlLeft: int, ctrlRight: int, shiftLeft: int, shiftRight: int, altLeft: int, altRight: int)

  /** The part of the shell configuration the handlers read: the required modifiers (the Win flag
      plays no part here) and the mode. */
  datatype HotkeySettings = HotkeySettings(ctrl: bool, shift: bool, alt: bool, toggleMode: bool)

  /** `keysPressed`. Its `win` flag is never set by the handlers. */
  datatype KeysPressed = KeysPressed(ctrl: bool, shift: bool, alt: bool, win: bool, key: bool)

  const NoKeys: KeysPressed := KeysPressed(false, false, false, false, false)

  /** The shell's hotkey state: the key flags, the trigger latch and whether it records. */
  datatype ShellState = ShellState(keys: KeysPressed, triggered: bool, recording: bool)

  /** A handler's effect: the new state and what it sent to the renderer. */
  datatype Step = Step(state: ShellState, sent: seq<RendererMessage>)

  /** `configuredKeyCode && e.keycode === configuredKeyCode`: a missing code and the falsy code 0
      match nothing. */
  predicate IsConfiguredKey(keycode: int, configured: Option<int>)
  {
    configured.Some? && configured.value != 0 && keycode == configured.value
  }

  /** The key flags after an event for `keycode`, which sets (`down`) or clears the flags of the
      modifier and the configured key the code belongs to, as the four `if`s of each handler do. */
  function Track(keys: KeysPressed, codes: ModifierCodes, keycode: int, configured: Option<int>, down: bool): (k: KeysPressed)
    ensures k.win == keys.win
    ensures k.key == if IsConfiguredKey(keycode, configured) then down else keys.key
    ensures k.ctrl == if keycode in {codes.ctrlLeft, codes.ctrlRight} then down else keys.ctrl
    ensures k.shift == if keycode in {codes.shiftLeft, codes.shiftRight} then down else keys.shift
    ensures k.alt == if keycode in {codes.altLeft, codes.altRight} then down else keys.alt
    ensures (keycode !in {codes.ctrlLeft, codes.ctrlRight, codes.shiftLeft, codes.shiftRight, codes.altLeft, codes.altRight} &&
             !IsConfiguredKey(keycode, configured)) ==> k == keys
  {
    var k1 := if keycode == codes.ctrlLeft || keycode == codes.ctrlRight then keys.(ctrl := down) else keys;
    var k2 := if keycode == codes.shiftLeft || keycode == codes.shiftRight then k1.(shift := down) else k1;
    var k3 := if keycode == codes.altLeft || keycode == codes.altRight then k2.(alt := down) else k2;
    if IsConfiguredKey(keycode, configured) then k3.(key := down) else k3
  }

  /** Repeated events for the same key (the auto-repeat of a held key) change nothing more. */
  lemma TrackIdempotent(keys: KeysPressed, codes: ModifierCodes, keycode: int, configured: Option<int>, down: bool)
    ensures var k := Track(keys, codes, keycode, configured, down); Track(k, codes, keycode, configured, down) == k
  {
  }

  /** `allPressed`: every required modifier and the configured key are down. */
  predicate AllPressed(settings: HotkeySettings, keys: KeysPressed)
  {
    (!settings.ctrl || keys.ctrl) && (!settings.shift || keys.shift) && (!settings.alt || keys.alt) && keys.key
  }

  /** `missingKey`: a required modifier or the configured key is up. */
  predicate MissingKey(settings: HotkeySettings, keys: KeysPressed)
  {
    (settings.ctrl && !keys.ctrl) || (settings.shift && !keys.shift) || (settings.alt && !keys.alt) || !keys.key
  }

  /** `startRecording`: a no-op while recording. */
  function StartStep(s: ShellState): Step
  {
    if s.recording then Step(s, []) else Step(s.(recording := true), [StartRecordingMessage])
  }

  /** `stopRecording`: a no-op while not recording. */
  function StopStep(s: ShellState): Step
  {
    if !s.recording then Step(s, []) else Step(s.(recording := false), [StopRecordingMessage])
  }

  /** The key-down handler: track the key, and when the whole hotkey is down and the latch is
      open, close it and start or stop (toggle mode) or start (push-to-talk). */
  function KeyDownStep(s: ShellState, settings: HotkeySettings, codes: ModifierCodes, keycode: int, configured: Option<int>): Step
  {
    var keys := Track(s.keys, codes, keycode, configured, true);
    var t := s.(keys := keys);
    if AllPressed(settings, keys) && !s.triggered then
      var fired := t.(triggered := true);
      if settings.toggleMode then (if s.recording then StopStep(fired) else StartStep(fired))
      else if !s.recording then StartStep(fired)
      else Step(fired, [])
    else Step(t, [])
  }

  /** The key-up handler: track the key, open the latch when part of the hotkey is up, and in
      push-to-talk mode stop a recording then. */
  function KeyUpStep(s: ShellState, settings: HotkeySettings, codes: ModifierCodes, keycode: int, configured: Option<int>): Step
  {
    var keys := Track(s.keys, codes, keycode, configured, false);
    var missing := MissingKey(settings, keys);
    var t := s.(keys := keys, triggered := if missing then false else s.triggered);
    if settings.toggleMode then Step(t, [])
    else if s.recording && missing then StopStep(t)
    else Step(t, [])
  }

  /** The recording state after an action of the desktop policy takes effect. */
  function AfterAction(recording: bool, action: Dictation.Action): bool
  {
    match action
    case StartAction => true
    case StopAction => false
    case NoAction => recording
  }

  /** The shell's state, which the handlers update in place. */
  class ShellHotkeys {
    var isRecording: bool
    var keysPressed: KeysPressed
    var hotkeyTriggered: bool
    /** What the shell has sent to the renderer, oldest first. */
    ghost var sent: seq<RendererMessage>

    function State(): ShellState
      reads this
    {
      ShellState(keysPressed, hotkeyTriggered, isRecording)
    }

    /** Nothing held, nothing recorded, nothing sent. */
    constructor ()
      ensures State() == ShellState(NoKeys, false, false) && sent == []
    {
      isRecording := false;
      keysPressed := NoKeys;
      hotkeyTriggered := false;
      sent := [];
    }

    method StartRecording()
      modifies this
      ensures State() == StartStep(old(State())).state
      ensures sent == old(sent) + StartStep(old(State())).sent
    {
      if isRecording {
        return;
      }
      isRecording := true;
      sent := sent + [StartRecordingMessage];
    }

    method StopRecording()
      modifies this
      ensures State() == StopStep(old(State())).state
      ensures sent == old(sent) + StopStep(old(State())).sent
    {
      if !isRecording {
        return;
      }
      isRecording := false;
      sent := sent + [StopRecordingMessage];
    }

    /** Sets (`down`) or clears the flag of the modifier and of the configured key `keycode`
        belongs to. */
    method TrackKey(codes: ModifierCodes, keycode: int, configured: Option<int>, down: bool)
      modifies this
      ensures keysPressed == Track(old(keysPressed), codes, keycode, configured, down)
      ensures isRecording == old(isRecording) && hotkeyTriggered == old(hotkeyTriggered) && sent == old(sent)
    {
      if keycode == codes.ctrlLeft || keycode == codes.ctrlRight {
        keysPressed := keysPressed.(ctrl := down);
      }
      if keycode == codes.shiftLeft || keycode == codes.shiftRight {
        keysPressed := keysPressed.(shift := down);
      }
      if keycode == codes.altLeft || keycode == codes.altRight {
        keysPressed := keysPressed.(alt := down);
      }
      if IsConfiguredKey(keycode, configured) {
        keysPressed := keysPressed.(key := down);
      }
    }

    method OnKeyDown(settings: HotkeySettings, codes: ModifierCodes, keycode: int, configured: Option<int>)
      modifies this
      ensures var step := KeyDownStep(old(State()), settings, codes, keycode, configured);
        State() == step.state && sent == old(sent) + step.sent
    {
      TrackKey(codes, keycode, configured, true);
      var allPressed := (!settings.ctrl || keysPressed.ctrl) && (!settings.shift || keysPressed.shift) &&
                        (!settings.alt || keysPressed.alt) && keysPressed.key;
      if allPressed && !hotkeyTriggered {
        hotkeyTriggered := true;
        if settings.toggleMode {
          if isRecording {
            StopRecording();
          } else {
            StartRecording();
          }
        } else if !isRecording {
          StartRecording();
        }
      }
    }

    method OnKeyUp(settings: HotkeySettings, codes: ModifierCodes, keycode: int, configured: Option<int>)
      modifies this
      ensures var step := KeyUpStep(old(State()), settings, codes, keycode, configured);
        State() == step.state && sent == old(sent) + step.sent
    {
      TrackKey(codes, keycode, configured, false);
      var missingKey := (settings.ctrl && !keysPressed.ctrl) || (settings.shift && !keysPressed.shift) ||
                        (settings.alt && !keysPressed.alt) || !keysPressed.key;
      if missingKey {
        hotkeyTriggered := false;
      }
      if settings.toggleMode {
        return;
      }
      if isRecording && missingKey {
        StopRecording();
      }
    }

    /** A `keydown` or `keyup` line from the helper: the same start/stop policy as the desktop
        application's controller; other lines leave the recording alone. */
    method OnHelperMessage(msg: string, toggleMode: bool)
      modifies this
      ensures keysPressed == old(keysPressed) && hotkeyTriggered == old(hotkeyTriggered)
      ensures msg == "keydown" ==>
        isRecording == AfterAction(old(isRecording), Dictation.HotkeyAction(toggleMode, old(isRecording), Dictation.HotkeyPressed))
      ensures msg == "keyup" ==>
        isRecording == AfterAction(old(isRecording), Dictation.HotkeyAction(toggleMode, old(isRecording), Dictation.HotkeyReleased))
      ensures msg != "keydown" && msg != "keyup" ==> isRecording == old(isRecording) && sent == old(sent)
      ensures |sent| == |old(sent)| + (if isRecording == old(isRecording) then 0 else 1)
      ensures sent == old(sent) +
        (if isRecording == old(isRecording) then [] else if isRecording then [StartRecordingMessage] else [StopRecordingMessage])
    {
      if msg == "keydown" {
        if toggleMode {
          if isRecording {
            StopRecording();
          } else {
            StartRecording();
          }
        } else if !isRecording {
          StartRecording();
        }
      } else if msg == "keyup" && isRecording && !toggleMode {
        StopRecording();
      }
    }

    /** The renderer reports the recording finished (also what the end of a transcription does). */
    method RecordingComplete()
      modifies this
      ensures State() == old(State()).(recording := false) && sent == old(sent)
    {
      isRecording := false;
    }
  }

  // ---------------------------------------------------------------- properties of the handlers

  /** `missingKey` is exactly the negation of `allPressed`. */
  lemma MissingKeyIsNotAllPressed(settings: HotkeySettings, keys: KeysPressed)
    ensures MissingKey(settings, keys) <==> !AllPressed(settings, keys)
  {
  }

  /** The latch is closed only while the whole hotkey is down. */
  predicate LatchValid(settings: HotkeySettings, s: ShellState)
  {
    s.triggered ==> AllPressed(settings, s.keys)
  }

  /** Key events keep the latch valid under fixed settings, whatever the key codes: a key-down
      only adds pressed keys, and a key-up that releases part of the hotkey opens the latch. */
  lemma LatchStaysValid(s: ShellState, settings: HotkeySettings, codes: ModifierCodes, keycode: int, configured: Option<int>)
    requires LatchValid(settings, s)
    ensures LatchValid(settings, KeyDownStep(s, settings, codes, keycode, configured).state)
    ensures LatchValid(settings, KeyUpStep(s, settings, codes, keycode, configured).state)
  {
    var down := Track(s.keys, codes, keycode, configured, true);
    assert s.keys.ctrl ==> down.ctrl;
    assert s.keys.shift ==> down.shift;
    assert s.keys.alt ==> down.alt;
    assert s.keys.key ==> down.key;
  }

  /** Whether a key-down fires the hotkey (closes an open latch). */
  predicate Fires(s: ShellState, settings: HotkeySettings, codes: ModifierCodes, keycode: int, configured: Option<int>)
  {
    !s.triggered && KeyDownStep(s, settings, codes, keycode, configured).state.triggered
  }

  /** A key-down that fires closes the latch, and a key-down with the latch closed neither fires
      nor starts, stops or sends anything. */
  lemma KeyDownLatch(s: ShellState, settings: HotkeySettings, codes: ModifierCodes, keycode: int, configured: Option<int>)
    ensures s.triggered ==> KeyDownStep(s, settings, codes, keycode, configured).state.triggered
    ensures s.triggered ==> (KeyDownStep(s, settings, codes, keycode, configured).sent == [] &&
      KeyDownStep(s, settings, codes, keycode, configured).state.recording == s.recording)
    ensures !Fires(s, settings, codes, keycode, configured) ==> KeyDownStep(s, settings, codes, keycode, configured).sent == []
  {
  }

  /** How many key-downs of a run fire the hotkey, under fixed settings. */
  function FiresIn(s: ShellState, settings: HotkeySettings, codes: ModifierCodes, keycodes: seq<int>, configured: Option<int>): nat
    decreases |keycodes|
  {
    if |keycodes| == 0 then 0
    else
      var step := KeyDownStep(s, settings, codes, keycodes[0], configured);
      (if Fires(s, settings, codes, keycodes[0], configured) then 1 else 0) + FiresIn(step.state, settings, codes, keycodes[1..], configured)
  }

  /** Holding keys (a run of key-downs, key repeat included) fires the hotkey at most once, and
      not at all when it has already fired: it fires again only after a key-up opens the latch. */
  lemma {:induction false} FiresAtMostOnce(s: ShellState, settings: HotkeySettings, codes: ModifierCodes, keycodes: seq<int>, configured: Option<int>)
    ensures FiresIn(s, settings, codes, keycodes, configured) <= 1
    ensures s.triggered ==> FiresIn(s, settings, codes, keycodes, configured) == 0
    decreases |keycodes|
  {
    if |keycodes| > 0 {
      var step := KeyDownStep(s, settings, codes, keycodes[0], configured);
      KeyDownLatch(s, settings, codes, keycodes[0], configured);
      FiresAtMostOnce(step.state, settings, codes, keycodes[1..], configured);
      if !s.triggered && !step.state.triggered {
        assert !Fires(s, settings, codes, keycodes[0], configured);
      }
    }
  }

  /** A key-up opens the latch exactly when it leaves part of the hotkey up (otherwise the latch
      keeps its state); in push-to-talk mode such a key-up stops a running recording, and no
      key-up ever starts one. */
  lemma KeyUpEffect(s: ShellState, settings: HotkeySettings, codes: ModifierCodes, keycode: int, configured: Option<int>)
    ensures var step := KeyUpStep(s, settings, codes, keycode, configured);
      var missing := MissingKey(settings, step.state.keys);
      step.state.triggered == (s.triggered && !missing) &&
      (step.state.recording ==> s.recording) &&
      (!settings.toggleMode && missing ==> !step.state.recording) &&
      (step.sent == (if !settings.toggleMode && missing && s.recording then [StopRecordingMessage] else []))
  {
  }

  /** When the hotkey fires, toggle mode flips the recording and push-to-talk mode makes it record;
      exactly one message goes out when the state changes. */
  lemma FiringEffect(s: ShellState, settings: HotkeySettings, codes: ModifierCodes, keycode: int, configured: Option<int>)
    requires Fires(s, settings, codes, keycode, configured)
    ensures var step := KeyDownStep(s, settings, codes, keycode, configured);
      (settings.toggleMode ==> step.state.recording == !s.recording) &&
      (!settings.toggleMode ==> step.state.recording) &&
      (step.sent == if step.state.recording == s.recording then []
                    else if step.state.recording then [StartRecordingMessage] else [StopRecordingMessage])
  {
  }

  /** `startRecording` and `stopRecording` change nothing in the state they lead to, and send a
      message exactly when they change the state. */
  lemma StartStopIdempotent(s: ShellState)
    ensures StartStep(s).state.recording && StopStep(s).state.recording == false
    ensures StartStep(StartStep(s).state) == Step(StartStep(s).state, [])
    ensures StopStep(StopStep(s).state) == Step(StopStep(s).state, [])
    ensures StartStep(s).sent == (if s.recording then [] else [StartRecordingMessage])
    ensures StopStep(s).sent == (if s.recording then [StopRecordingMessage] else [])
  {
  }
}

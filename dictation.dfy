/** The main window's dictation controller: it turns hotkey signals and mic-button clicks into
    starting and stopping a recording, and after a transcription records it in the history and the
    usage statistics. Audio capture, the transcription engine, the clipboard and pasting are left
    out; the transcription's outcome, the foreground window and the clock are parameters. The
    asynchronous stop is split at its `await` into `BeginStop` (what runs at once) and
    `CompleteStop` (the continuation, given the outcome). */
module Dictation {
  import opened Wrappers
  import opened Text
  import opened Models
  import ConfigService
  import FloatingBar

  const StatusReady: string := "Ready"
  const StatusRecording: string := "Recording..."
  const StatusProcessing: string := "Processing..."
  const StatusReadyWithHint: string := "Ready — press hotkey to dictate"
  const ErrorPrefix: string := "Error: "

  /** `string.Format(Strings.ErrorFormat, message)`. */
  function ErrorStatus(message: string): string
  {
    ErrorPrefix + message
  }

  datatype TranscriptionResult = TranscriptionResult(text: string, duration: int, detectedLanguage: Option<string>)

  // ---------------------------------------------------------------- hotkey policy

  datatype HotkeySignal = HotkeyPressed | HotkeyReleased

  datatype Action = StartAction | StopAction | NoAction

  /** What the controller does with a hotkey signal. In toggle mode a press flips between recording
      and not recording and a release is ignored; in push-to-talk mode a press starts a recording
      that is not running and a release stops one that is. */
  function HotkeyAction(toggleMode: bool, isRecording: bool, signal: HotkeySignal): Action
  {
    match signal
    case HotkeyPressed =>
      if toggleMode then (if isRecording then StopAction else StartAction)
      else if !isRecording then StartAction else NoAction
    case HotkeyReleased =>
      if !toggleMode && isRecording then StopAction else NoAction
  }

  /** The policy never starts a recording that is running nor stops one that is not; in toggle mode
      every press acts and releases do nothing; in push-to-talk mode a press never stops and a
      release never starts. */
  lemma HotkeyActionSpec(toggleMode: bool, isRecording: bool, signal: HotkeySignal)
    ensures var a := HotkeyAction(toggleMode, isRecording, signal);
      (a == StartAction ==> !isRecording) && (a == StopAction ==> isRecording) &&
      (toggleMode ==> (signal == HotkeyPressed <==> a != NoAction)) &&
      (!toggleMode && signal == HotkeyPressed ==> (a == StartAction <==> !isRecording) && a != StopAction) &&
      (!toggleMode && signal == HotkeyReleased ==> (a == StopAction <==> isRecording) && a != StartAction)
  {
  }

  /** The recording state after following the policy for a run of signals, when every action takes
      effect at once. */
  function RecordingAfter(toggleMode: bool, isRecording: bool, signals: seq<HotkeySignal>): bool
    decreases |signals|
  {
    if |signals| == 0 then isRecording
    else
      var a := HotkeyAction(toggleMode, isRecording, signals[0]);
      RecordingAfter(toggleMode, if a == StartAction then true else if a == StopAction then false else isRecording, signals[1..])
  }

  /** In push-to-talk mode the recording follows the key: after any run of signals ending in a
      press the controller records, after one ending in a release it does not. In toggle mode an
      even number of presses leaves the recording state as it was. */
  lemma {:induction false} RecordingFollowsSignals(toggleMode: bool, isRecording: bool, signals: seq<HotkeySignal>)
    ensures !toggleMode && |signals| > 0 ==>
      RecordingAfter(toggleMode, isRecording, signals) == (signals[|signals| - 1] == HotkeyPressed)
    ensures toggleMode && (forall i :: 0 <= i < |signals| ==> signals[i] == HotkeyPressed) ==>
      RecordingAfter(toggleMode, isRecording, signals) == (if |signals| % 2 == 0 then isRecording else !isRecording)
    decreases |signals|
  {
    if |signals| > 0 {
      var a := HotkeyAction(toggleMode, isRecording, signals[0]);
      var next := if a == StartAction then true else if a == StopAction then false else isRecording;
      RecordingFollowsSignals(toggleMode, next, signals[1..]);
      if toggleMode && (forall i :: 0 <= i < |signals| ==> signals[i] == HotkeyPressed) {
        assert signals[0] == HotkeyPressed;
        assert forall i :: 0 <= i < |signals[1..]| ==> signals[1..][i] == signals[i + 1];
      }
    }
  }

  // ---------------------------------------------------------------- words and history

  /** The number of non-empty pieces. */
  function NonEmptyCount(pieces: seq<string>): (n: nat)
    ensures n <= |pieces|
  {
    if |pieces| == 0 then 0 else (if pieces[0] != "" then 1 else 0) + NonEmptyCount(pieces[1..])
  }

  /** `text.Split(' ', StringSplitOptions.RemoveEmptyEntries).Length`. */
  function CountWords(text: string): nat
  {
    NonEmptyCount(Split(text, ' '))
  }

  lemma {:induction false} NonEmptyCountAll(pieces: seq<string>)
    requires forall i :: 0 <= i < |pieces| ==> pieces[i] != ""
    ensures NonEmptyCount(pieces) == |pieces|
  {
    if |pieces| > 0 {
      NonEmptyCountAll(pieces[1..]);
    }
  }

  /** Words joined by single spaces are counted one each. */
  lemma CountWordsOfWords(words: seq<string>)
    requires forall i :: 0 <= i < |words| ==> words[i] != "" && ' ' !in words[i]
    ensures CountWords(Join(" ", words)) == |words|
  {
    if |words| > 0 {
      SplitJoin(words, ' ');
      NonEmptyCountAll(words);
    }
  }

  /** Leading spaces add no words. */
  lemma CountWordsLeadingSpace(text: string)
    ensures CountWords(" " + text) == CountWords(text)
  {
    assert (" " + text)[1..] == text;
  }

  /** The history after `Insert(0, entry)` and removing the last entry while there are more than
      `MaxHistoryEntries`. */
  function CappedHistory(history: seq<HistoryEntry>, entry: HistoryEntry): seq<HistoryEntry>
  {
    var inserted := [entry] + history;
    if |inserted| > MaxHistoryEntries then inserted[..MaxHistoryEntries] else inserted
  }

  /** The newest entry comes first, the older ones follow in their order, at most 200 are kept,
      and only entries beyond the cap are dropped. */
  lemma CappedHistorySpec(history: seq<HistoryEntry>, entry: HistoryEntry)
    ensures var h := CappedHistory(history, entry);
      h[0] == entry && |h| <= MaxHistoryEntries &&
      |h| == (if |history| + 1 > MaxHistoryEntries then MaxHistoryEntries else |history| + 1) &&
      forall i :: 1 <= i < |h| ==> h[i] == history[i - 1]
  {
  }

  // ---------------------------------------------------------------- the view model

  class MainViewModel {
    const config: ConfigService.JsonConfigService
    var floatingBar: FloatingBar.FloatingBarViewModel?
    var isTranscribing: bool
    var targetWindow: int
    var isRecording: bool
    var isProcessing: bool
    var statusText: string
    var lastTranscription: string
    /** `HotkeyHint` and `CurrentModelName` are set once, by the constructor. */
    const hotkeyHint: string
    var totalRecordings: int
    var totalWords: int
    const currentModelName: string
    var history: seq<HistoryEntry>

    /** Processing is shown exactly while a transcription runs, no recording runs during one, and
        the history stays within its cap. */
    ghost predicate Valid()
      reads this
    {
      isProcessing == isTranscribing && !(isTranscribing && isRecording) && |history| <= MaxHistoryEntries
    }

    /** The floating bar, when there is one, shows this controller's flags and status. */
    ghost predicate BarMirrors()
      reads this, floatingBar
    {
      floatingBar != null ==>
        floatingBar.isRecording == isRecording && floatingBar.isProcessing == isProcessing &&
        floatingBar.statusText == FloatingBar.SyncedStatus(isRecording, isProcessing, statusText, floatingBar.hotkeyHint)
    }

    /** The hint, the totals and the model name come from the configuration. */
    constructor (config: ConfigService.JsonConfigService)
      ensures this.config == config && floatingBar == null
      ensures hotkeyHint == config.current.hotkeyDisplay && currentModelName == config.current.whisperModel
      ensures totalRecordings == config.current.stats.totalRecordings && totalWords == config.current.stats.totalWords
      ensures !isRecording && !isProcessing && !isTranscribing && statusText == StatusReady
      ensures history == [] && lastTranscription == ""
      ensures Valid()
    {
      this.config := config;
      floatingBar := null;
      isTranscribing := false;
      targetWindow := 0;
      isRecording := false;
      isProcessing := false;
      statusText := StatusReady;
      lastTranscription := "";
      hotkeyHint := config.current.hotkeyDisplay;
      totalRecordings := config.current.stats.totalRecordings;
      totalWords := config.current.stats.totalWords;
      currentModelName := config.current.whisperModel;
      history := [];
    }

    /** The `FloatingBar` property. */
    method SetFloatingBar(bar: FloatingBar.FloatingBarViewModel?)
      modifies this
      ensures floatingBar == bar
      ensures isRecording == old(isRecording) && isProcessing == old(isProcessing) && isTranscribing == old(isTranscribing)
      ensures statusText == old(statusText) && history == old(history) && targetWindow == old(targetWindow)
      ensures lastTranscription == old(lastTranscription) && totalRecordings == old(totalRecordings) && totalWords == old(totalWords)
      ensures old(Valid()) ==> Valid()
    {
      floatingBar := bar;
    }

    /** `FloatingBar?.Sync(IsRecording, IsProcessing, StatusText)`. */
    method SyncBar()
      modifies floatingBar
      ensures BarMirrors()
    {
      if floatingBar != null {
        floatingBar.Sync(isRecording, isProcessing, statusText);
      }
    }

    /** Starts a recording unless a transcription is running; the paste target is the window the
        hotkey named, or the foreground window when it named none. */
    method StartRecording(target: int, foregroundWindow: int)
      modifies this, floatingBar
      requires Valid()
      ensures Valid()
      ensures old(isTranscribing) ==> (isRecording == old(isRecording) && statusText == old(statusText) &&
        targetWindow == old(targetWindow) && (old(BarMirrors()) ==> BarMirrors()))
      ensures !old(isTranscribing) ==> (isRecording && statusText == StatusRecording && BarMirrors() &&
        targetWindow == (if target != 0 then target else foregroundWindow))
      ensures isProcessing == old(isProcessing) && isTranscribing == old(isTranscribing) && history == old(history)
      ensures floatingBar == old(floatingBar) && lastTranscription == old(lastTranscription) && totalRecordings == old(totalRecordings) && totalWords == old(totalWords)
    {
      if isTranscribing {
        return;
      }
      targetWindow := if target != 0 then target else foregroundWindow;
      isRecording := true;
      statusText := StatusRecording;
      SyncBar();
    }

    /** The part of `StopAndTranscribeAsync` before its first `await`: unless a transcription is
        already running, the recording ends and processing begins. `started` says whether the
        continuation `CompleteStop` is pending. */
    method BeginStop() returns (started: bool)
      modifies this, floatingBar
      requires Valid()
      ensures Valid()
      ensures started == !old(isTranscribing)
      ensures old(isTranscribing) ==> (isRecording == old(isRecording) && statusText == old(statusText) &&
        (old(BarMirrors()) ==> BarMirrors()))
      ensures started ==> isTranscribing && !isRecording && isProcessing && statusText == StatusProcessing && BarMirrors()
      ensures isTranscribing && targetWindow == old(targetWindow) && history == old(history)
      ensures floatingBar == old(floatingBar) && lastTranscription == old(lastTranscription) && totalRecordings == old(totalRecordings) && totalWords == old(totalWords)
    {
      if isTranscribing {
        return false;
      }
      isTranscribing := true;
      isRecording := false;
      isProcessing := true;
      statusText := StatusProcessing;
      SyncBar();
      started := true;
    }

    /** `History.Insert(0, entry)` followed by the loop that drops the oldest entries beyond the cap. */
    method AddToHistory(entry: HistoryEntry)
      modifies this
      ensures history == CappedHistory(old(history), entry)
      ensures isRecording == old(isRecording) && isProcessing == old(isProcessing) && isTranscribing == old(isTranscribing)
      ensures statusText == old(statusText) && floatingBar == old(floatingBar) && lastTranscription == old(lastTranscription)
      ensures totalRecordings == old(totalRecordings) && totalWords == old(totalWords) && targetWindow == old(targetWindow)
    {
      var inserted := [entry] + history;
      history := inserted;
      while |history| > MaxHistoryEntries
        invariant MaxHistoryEntries <= |history| <= |inserted| || history == inserted
        invariant history == inserted[..|history|]
        invariant isRecording == old(isRecording) && isProcessing == old(isProcessing) && isTranscribing == old(isTranscribing)
        invariant statusText == old(statusText) && floatingBar == old(floatingBar) && lastTranscription == old(lastTranscription)
        invariant totalRecordings == old(totalRecordings) && totalWords == old(totalWords) && targetWindow == old(targetWindow)
        decreases |history|
      {
        history := history[..|history| - 1];
      }
    }

    /** The continuation of `StopAndTranscribeAsync`. A failed transcription only shows its error.
        A successful one becomes the last transcription and the newest history entry, adds one
        recording and its words to the 32-bit totals (which wrap like C# `int`) and writes them to the configuration; the status
        then reads ready, or shows the error of a later failing clipboard step. Either way
        processing ends and the bar is synced. */
    method CompleteStop(outcome: Result<TranscriptionResult, string>, deliveryError: Option<string>, now: int)
      modifies this, config, floatingBar
      requires Valid() && isTranscribing
      ensures Valid()
      ensures !isProcessing && !isTranscribing && !isRecording && BarMirrors()
      ensures outcome.Err? ==>
        statusText == ErrorStatus(outcome.error) && history == old(history) &&
        totalRecordings == old(totalRecordings) && totalWords == old(totalWords) &&
        lastTranscription == old(lastTranscription) && config.current == old(config.current) &&
        config.notified == old(config.notified)
      ensures outcome.Ok? ==>
        var r := outcome.value;
        lastTranscription == r.text &&
        history == CappedHistory(old(history), HistoryEntry(r.text, now, r.duration, r.detectedLanguage)) &&
        totalRecordings == Wrap32(old(totalRecordings) + 1) && totalWords == Wrap32(old(totalWords) + CountWords(r.text)) &&
        config.current == old(config.current).(stats := old(config.current).stats.(totalRecordings := totalRecordings, totalWords := totalWords)) &&
        config.notified == old(config.notified) + [config.current] &&
        statusText == (if deliveryError.Some? then ErrorStatus(deliveryError.value) else StatusReadyWithHint)
      ensures floatingBar == old(floatingBar) && targetWindow == old(targetWindow)
    {
      match outcome {
        case Err(message) =>
          statusText := ErrorStatus(message);
        case Ok(result) =>
          lastTranscription := result.text;
          AddToHistory(HistoryEntry(result.text, now, result.duration, result.detectedLanguage));
          totalRecordings := Wrap32(totalRecordings + 1);
          totalWords := Wrap32(totalWords + CountWords(result.text));
          var recordings, words := totalRecordings, totalWords;
          var _ := config.Update((c: AppConfig) => c.(stats := c.stats.(totalRecordings := recordings, totalWords := words)));
          statusText := if deliveryError.Some? then ErrorStatus(deliveryError.value) else StatusReadyWithHint;
      }
      isProcessing := false;
      isTranscribing := false;
      SyncBar();
    }

    /** The mic button stops (or, during a transcription, asks to stop, which does nothing) when
        recording or transcribing, and starts a recording otherwise. */
    method MicButtonClick(foregroundWindow: int) returns (started: bool)
      modifies this, floatingBar
      requires Valid()
      ensures Valid()
      ensures old(isRecording) && !old(isTranscribing) ==>
        started && !isRecording && isProcessing && statusText == StatusProcessing && BarMirrors()
      ensures old(isTranscribing) ==>
        !started && isRecording == old(isRecording) && statusText == old(statusText) &&
        isProcessing && (old(BarMirrors()) ==> BarMirrors())
      ensures !old(isRecording) && !old(isTranscribing) ==>
        !started && isRecording && statusText == StatusRecording && targetWindow == foregroundWindow && BarMirrors()
      ensures old(isRecording) || old(isTranscribing) ==> targetWindow == old(targetWindow)
      ensures floatingBar == old(floatingBar) && history == old(history)
      ensures lastTranscription == old(lastTranscription) && totalRecordings == old(totalRecordings) && totalWords == old(totalWords)
    {
      started := false;
      if isRecording || isTranscribing {
        started := BeginStop();
      } else {
        StartRecording(0, foregroundWindow);
      }
    }

    /** The posted handler of a hotkey press: it follows `HotkeyAction` for the current toggle
        mode; `target` is the window the press event carried. */
    method OnHotkeyPressed(target: int, foregroundWindow: int) returns (started: bool)
      modifies this, floatingBar
      requires Valid()
      ensures Valid()
      ensures var a := HotkeyAction(config.current.toggleMode, old(isRecording), HotkeyPressed);
        (a == StartAction && !old(isTranscribing) ==> (!started && isRecording && statusText == StatusRecording &&
           targetWindow == (if target != 0 then target else foregroundWindow) && BarMirrors())) &&
        (a == StopAction ==> started && !isRecording && isProcessing && statusText == StatusProcessing && BarMirrors()) &&
        (a == NoAction || (a == StartAction && old(isTranscribing)) ==>
           !started && isRecording == old(isRecording) && statusText == old(statusText) &&
           isTranscribing == old(isTranscribing) && isProcessing == old(isProcessing) &&
           (old(BarMirrors()) ==> BarMirrors())) &&
        (a != StartAction || old(isTranscribing) ==> targetWindow == old(targetWindow))
      ensures floatingBar == old(floatingBar) && history == old(history)
      ensures lastTranscription == old(lastTranscription) && totalRecordings == old(totalRecordings) && totalWords == old(totalWords)
    {
      started := false;
      var action := HotkeyAction(config.current.toggleMode, isRecording, HotkeyPressed);
      if action == StartAction {
        StartRecording(target, foregroundWindow);
      } else if action == StopAction {
        started := BeginStop();
      }
    }

    /** The posted handler of a hotkey release: in push-to-talk mode it stops a running recording. */
    method OnHotkeyReleased() returns (started: bool)
      modifies this, floatingBar
      requires Valid()
      ensures Valid()
      ensures HotkeyAction(config.current.toggleMode, old(isRecording), HotkeyReleased) == StopAction ==>
        started && !isRecording && isProcessing && statusText == StatusProcessing && BarMirrors()
      ensures HotkeyAction(config.current.toggleMode, old(isRecording), HotkeyReleased) == NoAction ==>
        !started && isRecording == old(isRecording) && statusText == old(statusText) &&
        isTranscribing == old(isTranscribing) && isProcessing == old(isProcessing) &&
        (old(BarMirrors()) ==> BarMirrors())
      ensures floatingBar == old(floatingBar) && history == old(history) && targetWindow == old(targetWindow)
      ensures lastTranscription == old(lastTranscription) && totalRecordings == old(totalRecordings) && totalWords == old(totalWords)
    {
      started := false;
      if HotkeyAction(config.current.toggleMode, isRecording, HotkeyReleased) == StopAction {
        started := BeginStop();
      }
    }
  }
}

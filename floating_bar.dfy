/** The floating status bar's view model: it mirrors the recording and processing flags of the main
    window and shows either the main window's status text or, when idle, the hotkey hint. */
module FloatingBar {
  import opened Text
  import opened Models
  import ConfigService

  const HotkeyInfoPrefix: string := "Hotkey: "
  const ModelInfoPrefix: string := "Model: "
  const IdleSuffix: string := " to dictate"

  /** The idle status text, `"{0} to dictate"` filled with the hint. */
  function IdleStatus(hint: string): string
  {
    hint + IdleSuffix
  }

  /** The status text `Sync` settles on: the caller's text while busy, the idle text otherwise. */
  function SyncedStatus(isRecording: bool, isProcessing: bool, statusText: string, hint: string): string
  {
    if isRecording || isProcessing then statusText else IdleStatus(hint)
  }

  /** The bar shows the caller's text exactly when it is busy, and the hint only when idle; a
      status text that does not end in " to dictate" is never mistaken for the idle text. */
  lemma SyncedStatusSpec(isRecording: bool, isProcessing: bool, statusText: string, hint: string)
    ensures var r := SyncedStatus(isRecording, isProcessing, statusText, hint);
      (isRecording || isProcessing ==> r == statusText) &&
      (!isRecording && !isProcessing ==> |r| == |hint| + |IdleSuffix| && r[..|hint|] == hint && r[|hint|..] == IdleSuffix)
  ensures var r := SyncedStatus(isRecording, isProcessing, statusText, hint);
      (|statusText| < |IdleSuffix| || statusText[|statusText| - |IdleSuffix|..] != IdleSuffix) ==>
        (r == statusText <==> isRecording || isProcessing)
  {
    var r := SyncedStatus(isRecording, isProcessing, statusText, hint);
    if !isRecording && !isProcessing {
      assert r == hint + IdleSuffix && r[|r| - |IdleSuffix|..] == IdleSuffix;
    }
  }

  class FloatingBarViewModel {
    var isRecording: bool
    var isProcessing: bool
    var statusText: string
    var hotkeyHint: string
    var modelName: string

    /** Whenever the bar is idle it shows the hint. */
    ghost predicate Valid()
      reads this
    {
      IsIdle() ==> statusText == IdleStatus(hotkeyHint)
    }

    predicate IsIdle()
      reads this
    {
      !isRecording && !isProcessing
    }

    /** `"Hotkey: {0}"` filled with the hint. */
    function HotkeyInfo(): (r: string)
      reads this
      ensures StartsWith(r, HotkeyInfoPrefix) && r[|HotkeyInfoPrefix|..] == hotkeyHint
    {
      HotkeyInfoPrefix + hotkeyHint
    }

    /** `"Model: {0}"` filled with the model name. */
    function ModelInfo(): (r: string)
      reads this
      ensures StartsWith(r, ModelInfoPrefix) && r[|ModelInfoPrefix|..] == modelName
    {
      ModelInfoPrefix + modelName
    }

    /** Hint and model come from the current configuration; the bar starts idle. */
    constructor (config: ConfigService.JsonConfigService)
      ensures hotkeyHint == config.current.hotkeyDisplay && modelName == config.current.whisperModel
      ensures IsIdle() && statusText == IdleStatus(hotkeyHint)
      ensures Valid()
    {
      isRecording := false;
      isProcessing := false;
      hotkeyHint := config.current.hotkeyDisplay;
      modelName := config.current.whisperModel;
      statusText := IdleStatus(config.current.hotkeyDisplay);
    }

    /** Copies both flags and settles the status text; hint and model stay. */
    method Sync(recording: bool, processing: bool, text: string)
      modifies this
      ensures isRecording == recording && isProcessing == processing
      ensures statusText == SyncedStatus(recording, processing, text, hotkeyHint)
      ensures hotkeyHint == old(hotkeyHint) && modelName == old(modelName)
      ensures IsIdle() <==> !recording && !processing
      ensures Valid()
    {
      isRecording := recording;
      isProcessing := processing;
      statusText := if recording || processing then text else IdleStatus(hotkeyHint);
    }
  }
}

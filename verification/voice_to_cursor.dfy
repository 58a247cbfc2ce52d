/** The control logic of `VoiceRecorder`, without its widgets: the recording toggle and its
    sample buffer bracketed by `silence` / `restore`, the hand-off of the recording to the
    audio pipeline, the captured click coordinates and the automation sequence. What the
    recorder does to the outside world (the input stream, the WAV file, the clipboard, the
    file removal, the injected input) is appended to an effect trace. */
module VoiceToCursor {
  import opened Wrappers
  import opened Text
  import opened AudioControl
  import G = GptAudioProcessor

  const SampleRate := 44100
  const Channels := 1
  const PolishSystemMessage :=
    "Eres un asistente que ayuda a pulir y mejorar textos para usarlos como prompts en Cursor."
  const PolishTemplate :=
    "Por favor, pulir y mejorar el siguiente texto para usarlo como prompt en Cursor: {text}"
  const TagName := "text_to_cursor"
  const DefaultProcessModel := "gpt-3.5-turbo"
  const DefaultLanguage := "es"
  /** Milliseconds `process_audio` waits before running the sequence on its own. */
  const SequenceDelayMs := 1000

  /** The life of the `sd.InputStream` object. */
  datatype StreamState = NoStream | Opened | Started | Stopped | Closed

  /** One thing the recorder does outside its own fields, in the order it does it. */
  datatype Effect =
    | Silenced                                  // audio_ctrl.silence()
    | Restored                                  // audio_ctrl.restore()
    | StreamOpened(channels: nat, sampleRate: nat)
    | StreamStarted
    | StreamStopped
    | StreamClosed
    | WavWritten(file: string, sampleRate: nat, samples: seq<real>)
    | ClipboardCopied(text: string)             // pyperclip.copy
    | FileRemoved(file: string)                 // os.remove
    | SequenceScheduled(delayMs: nat)           // root.after(1000, execute_sequence)
    | PressEnter                                // pc_ctrl.enter()
    | LeftClick(x: int, y: int)                 // pc_ctrl.click_izquierdo(x, y)
    | Paste                                     // pc_ctrl.pegar()

  /** Whether the host calls that may raise succeed: `stream.stop()`, `stream.close()` and
      `wav.write` in `stop_recording` (none is guarded, so a failure ends `stop_recording`
      there), and the clipboard copy and the file removal in `process_audio` (a failure
      ends `process_audio` there). */
  datatype HostIO = HostIO(stopWorks: bool, closeWorks: bool, writeWorks: bool,
                           clipboardWorks: bool, removeWorks: bool)

  /** The local time `datetime.now()` returns. */
  datatype DateTime = DateTime(year: nat, month: nat, day: nat, hour: nat, minute: nat, second: nat)
  {
    predicate Valid()
    {
      1000 <= year <= 9999 && 1 <= month <= 12 && 1 <= day <= 31
      && hour < 24 && minute < 60 && second < 60
    }
  }

  function Pad2(n: nat): string
    requires n < 100
  {
    [DigitChar(n / 10), DigitChar(n % 10)]
  }

  function Pad4(n: nat): string
    requires n < 10000
  {
    Pad2(n / 100) + Pad2(n % 100)
  }

  lemma Pad2Value(n: nat)
    requires n < 100
    ensures |Pad2(n)| == 2 && AllDigits(Pad2(n)) && DigitsValue(Pad2(n)) == n
  {
    var s := Pad2(n);
    assert DigitChar(n / 10) as int - 48 == n / 10;
    assert DigitChar(n % 10) as int - 48 == n % 10;
    assert s[..1] == [DigitChar(n / 10)];
    assert DigitsValue(s[..1]) == n / 10 by {
      assert s[..1][..0] == [];
    }
  }

  lemma Pad4Value(n: nat)
    requires n < 10000
    ensures |Pad4(n)| == 4 && AllDigits(Pad4(n)) && DigitsValue(Pad4(n)) == n
  {
    var s := Pad4(n);
    Pad2Value(n / 100);
    Pad2Value(n % 100);
    assert s[..3] == Pad2(n / 100) + [DigitChar((n % 100) / 10)];
    assert s[..2] == Pad2(n / 100);
    assert s[..3][..2] == s[..2];
  }

  /** `strftime("%Y%m%d_%H%M%S")`: fifteen characters, '_' at index 8 and digits elsewhere,
      from which each field reads back. */
  function Timestamp(t: DateTime): (r: string)
    requires t.Valid()
    ensures |r| == 15 && r[8] == '_'
    ensures AllDigits(r[..8]) && AllDigits(r[9..])
    ensures DigitsValue(r[..4]) == t.year && DigitsValue(r[4..6]) == t.month
    ensures DigitsValue(r[6..8]) == t.day && DigitsValue(r[9..11]) == t.hour
    ensures DigitsValue(r[11..13]) == t.minute && DigitsValue(r[13..]) == t.second
  {
    Pad4Value(t.year);
    Pad2Value(t.month);
    Pad2Value(t.day);
    Pad2Value(t.hour);
    Pad2Value(t.minute);
    Pad2Value(t.second);
    var date := Pad4(t.year) + Pad2(t.month) + Pad2(t.day);
    var time := Pad2(t.hour) + Pad2(t.minute) + Pad2(t.second);
    var r := date + "_" + time;
    assert r[..8] == date && r[9..] == time;
    assert r[..4] == Pad4(t.year) && r[4..6] == Pad2(t.month) && r[6..8] == Pad2(t.day);
    assert r[9..11] == Pad2(t.hour) && r[11..13] == Pad2(t.minute) && r[13..] == Pad2(t.second);
    r
  }

  /** The name `stop_recording` gives the WAV file. */
  function RecordingFileName(t: DateTime): (r: string)
    requires t.Valid()
    ensures |r| == 29 && r[..10] == "recording_" && r[10..25] == Timestamp(t) && r[25..] == ".wav"
  {
    "recording_" + Timestamp(t) + ".wav"
  }

  /** The transcription prompt `process_audio` passes: the text field's content (Tk's
      `get(1.0, END)` adds a final newline) stripped, or `None` when nothing is left. */
  function PromptOption(fieldText: string): Option<string>
  {
    var prompt := Strip(fieldText + "\n");
    if prompt == "" then None else Some(prompt)
  }

  /** The prompt is `None` exactly when the field holds nothing but whitespace; otherwise it
      is a piece of the field's text, not empty, with no whitespace at either end. */
  lemma PromptOptionSpec(fieldText: string)
    ensures PromptOption(fieldText).None? <==> forall k :: 0 <= k < |fieldText| ==> IsSpace(fieldText[k])
    ensures PromptOption(fieldText).Some? ==>
              var p := PromptOption(fieldText).value;
              && p != "" && NoEdgeSpace(p)
              && exists i, j :: 0 <= i <= j <= |fieldText| && p == fieldText[i..j]
  {
    var s := fieldText + "\n";
    StripSpec(s);
    var i, j :| SpaceOutside(s, i, j) && Strip(s) == s[i..j];
    assert s[|fieldText|] == '\n';
    if Strip(s) == "" {
      assert i == j;
      forall k | 0 <= k < |fieldText| ensures IsSpace(fieldText[k]) {
        assert s[k] == fieldText[k];
      }
    } else {
      var p := Strip(s);
      assert p[0] == s[i] && p[|p| - 1] == s[j - 1];
      assert j <= |fieldText|;
      assert p == fieldText[i..j];
      assert !IsSpace(fieldText[i]);
    }
  }

  /** The language `process_audio` passes: the entry's text as it is, or `None` when empty. */
  function LanguageOption(entry: string): (r: Option<string>)
    ensures r.None? <==> entry == ""
    ensures r.Some? ==> r.value == entry
  {
    if entry != "" then Some(entry) else None
  }

  /** What `process_audio` does after the pipeline: on success, copy to the clipboard, then
      remove the audio file, then schedule the sequence when both coordinates are filled
      in; a failure at any step ends it there, so the file is removed only after the text
      reached the clipboard, and kept on any error. */
  function AfterPipeline(result: Result<string, string>, file: string, io: HostIO,
                         coordinatesSet: bool): (e: seq<Effect>)
    ensures FileRemoved(file) in e <==> result.Ok? && io.clipboardWorks && io.removeWorks
    ensures SequenceScheduled(SequenceDelayMs) in e
            <==> result.Ok? && io.clipboardWorks && io.removeWorks && coordinatesSet
    ensures e != [] ==> result.Ok? && e[0] == ClipboardCopied(result.value)
    ensures forall k :: 0 <= k < |e| && e[k].FileRemoved? ==> k == 1 && e[0].ClipboardCopied?
  {
    if result.Err? || !io.clipboardWorks then []
    else if !io.removeWorks then [ClipboardCopied(result.value)]
    else [ClipboardCopied(result.value), FileRemoved(file)]
         + (if coordinatesSet then [SequenceScheduled(SequenceDelayMs)] else [])
  }

  /** The four injected actions of `execute_sequence`, in order. */
  function InjectionSequence(x: int, y: int): seq<Effect>
  {
    [PressEnter, LeftClick(x, y), Paste, PressEnter]
  }

  function Min(a: nat, b: nat): nat
  {
    if a < b then a else b
  }

  /** What the recorder's pipeline returns for `audioFile` with the given option values,
      the polishing instruction and template, tag "text_to_cursor" and cleaning on. */
  function Polished(service: G.Service, audioFile: string, transcriptionModel: string,
                    processModel: string, promptText: string, language: string)
    : Result<string, string>
  {
    G.ProcessAudioResult(service, G.Path(audioFile), transcriptionModel, processModel,
                         PolishSystemMessage, PolishTemplate, TagName, true,
                         PromptOption(promptText), LanguageOption(language))
  }

  class VoiceRecorder {
    var recording: bool
    /** `audio_data`: the samples of the current recording, in arrival order. */
    var audioData: seq<real>
    /** `capturando`: waiting for the click that sets the coordinates. */
    var capturing: bool
    /** The contents of the X and Y entry fields. */
    var xEntry: string
    var yEntry: string
    /** The option widgets: transcription model, GPT model, prompt text field, language entry. */
    var transcriptionModel: string
    var processModel: string
    var transcriptionPromptText: string
    var language: string
    var stream: StreamState
    var effects: seq<Effect>
    const audioCtrl: AudioController
    const service: G.Service

    /** The mute/restore bracket: while recording a snapshot is held and the input stream
        runs. (A stop that fails before `restore` leaves the snapshot held afterwards.) */
    ghost predicate Valid()
      reads this`recording, this`stream, audioCtrl
    {
      audioCtrl.Valid()
      && (recording ==> audioCtrl.originalVolume.Some? && stream == Started)
    }

    /** `__init__` without the widgets: not recording, empty buffer and fields, the first
        transcription model, "gpt-3.5-turbo" and language "es" preselected. */
    constructor (service: G.Service, deviceMuted: bool, deviceLevel: int)
      requires 0 <= deviceLevel <= 100
      ensures Valid() && fresh(audioCtrl) && this.service == service
      ensures !recording && audioData == [] && !capturing && xEntry == "" && yEntry == ""
      ensures transcriptionModel == G.AvailableTranscriptionModels()[0] == G.WhisperModel
      ensures processModel == DefaultProcessModel && transcriptionPromptText == ""
      ensures language == DefaultLanguage && stream == NoStream && effects == []
      ensures audioCtrl.muted == deviceMuted && audioCtrl.level == deviceLevel
    {
      recording := false;
      audioData := [];
      capturing := false;
      xEntry, yEntry := "", "";
      transcriptionModel := G.AvailableTranscriptionModels()[0];
      processModel := DefaultProcessModel;
      transcriptionPromptText := "";
      language := DefaultLanguage;
      stream := NoStream;
      effects := [];
      audioCtrl := new AudioController(deviceMuted, deviceLevel);
      this.service := service;
    }

    /** Both coordinate entries are filled in. */
    predicate CoordinatesSet()
      reads this`xEntry, this`yEntry
    {
      xEntry != "" && yEntry != ""
    }

    /** `start_recording`: sets the flag, empties the buffer and silences the system audio
        before the input stream is opened and started. */
    method StartRecording()
      requires Valid()
      modifies this`recording, this`audioData, this`stream, this`effects, audioCtrl
      ensures Valid() && recording && audioData == [] && stream == Started
      ensures audioCtrl.originalVolume == Some(old(audioCtrl.level)) && audioCtrl.muted
      ensures audioCtrl.level == old(audioCtrl.level)
      ensures effects == old(effects) + [Silenced, StreamOpened(Channels, SampleRate), StreamStarted]
    {
      recording := true;
      audioData := [];
      audioCtrl.Silence();
      effects := effects + [Silenced];
      stream := Opened;
      effects := effects + [StreamOpened(Channels, SampleRate)];
      stream := Started;
      effects := effects + [StreamStarted];
    }

    /** The stream callback: appends the first channel of the block (frames by channels) to
        the end of the buffer, leaving the earlier samples as they were. */
    method OnAudioBlock(block: seq<seq<real>>)
      requires forall i :: 0 <= i < |block| ==> |block[i]| >= 1
      modifies this`audioData
      ensures |audioData| == |old(audioData)| + |block|
      ensures audioData[..|old(audioData)|] == old(audioData)
      ensures forall i :: 0 <= i < |block| ==> audioData[|old(audioData)| + i] == block[i][0]
    {
      var column := seq(|block|, i requires 0 <= i < |block| => block[i][0]);
      audioData := audioData + column;
    }

    /** The recorder's `process_audio`: normalises the options, runs the pipeline with the
        polishing instruction and template, then copies, removes the file and maybe
        schedules the sequence, as `AfterPipeline` says. */
    method ProcessAudio(audioFile: string, io: HostIO)
      modifies this`effects
      ensures effects == old(effects) + AfterPipeline(Polished(service, audioFile, transcriptionModel, processModel,
                                                               transcriptionPromptText, language),
                                                      audioFile, io, CoordinatesSet())
    {
      var transcriptionPrompt := PromptOption(transcriptionPromptText);
      var lang := LanguageOption(language);
      var polished := G.ProcessAudio(service, G.Path(audioFile), transcriptionModel, processModel,
                                     PolishSystemMessage, PolishTemplate, TagName, true,
                                     transcriptionPrompt, lang);
      assert polished == Polished(service, audioFile, transcriptionModel, processModel,
                                  transcriptionPromptText, language);
      Deliver(polished, audioFile, io);
    }

    /** The rest of `process_audio` once the pipeline has answered: copy, remove the file,
        schedule the sequence when the coordinates are set; an error ends it. */
    method Deliver(polished: Result<string, string>, audioFile: string, io: HostIO)
      modifies this`effects
      ensures effects == old(effects) + AfterPipeline(polished, audioFile, io, CoordinatesSet())
    {
      if polished.Err? || !io.clipboardWorks {
        return;
      }
      effects := effects + [ClipboardCopied(polished.value)];
      if !io.removeWorks {
        return;
      }
      effects := effects + [FileRemoved(audioFile)];
      if xEntry != "" && yEntry != "" {
        effects := effects + [SequenceScheduled(SequenceDelayMs)];
      }
    }

    /** `stop_recording`: clears the flag, stops then closes the stream, restores the
        system audio, writes the whole buffer at 44100 Hz to "recording_<timestamp>.wav"
        and hands that file to `process_audio`. Nothing is guarded: a failing stop or close
        leaves the system audio muted, and a failing write leaves no file to process. */
    method StopRecording(now: DateTime, io: HostIO)
      requires Valid() && recording && now.Valid()
      modifies this`recording, this`stream, this`effects, audioCtrl
      ensures Valid() && !recording
      ensures !io.stopWorks ==> stream == old(stream) && effects == old(effects) && unchanged(audioCtrl)
      ensures io.stopWorks && !io.closeWorks ==>
                stream == Stopped && effects == old(effects) + [StreamStopped] && unchanged(audioCtrl)
      ensures io.stopWorks && io.closeWorks ==>
                stream == Closed && audioCtrl.originalVolume == None && !audioCtrl.muted
                && audioCtrl.level == old(audioCtrl.originalVolume).value
      ensures io.stopWorks && io.closeWorks && !io.writeWorks ==>
                effects == old(effects) + [StreamStopped, StreamClosed, Restored]
      ensures io.stopWorks && io.closeWorks && io.writeWorks ==>
                var file := RecordingFileName(now);
                effects == old(effects)
                           + [StreamStopped, StreamClosed, Restored, WavWritten(file, SampleRate, audioData)]
                           + AfterPipeline(Polished(service, file, transcriptionModel, processModel,
                                                    transcriptionPromptText, language),
                                           file, io, CoordinatesSet())
    {
      EndCapture(io);
      if io.stopWorks && io.closeWorks {
        ghost var file := RecordingFileName(now);
        ghost var stopped := effects;
        assert stopped + [WavWritten(file, SampleRate, audioData)]
               == old(effects) + [StreamStopped, StreamClosed, Restored, WavWritten(file, SampleRate, audioData)];
        SaveAndProcess(now, io);
      }
    }

    /** The second half of `stop_recording`: writes the whole buffer at 44100 Hz to the
        file named after `now` and hands that file to `process_audio`; a failing write
        ends it with nothing done. */
    method SaveAndProcess(now: DateTime, io: HostIO)
      requires now.Valid()
      modifies this`effects
      ensures !io.writeWorks ==> effects == old(effects)
      ensures io.writeWorks ==>
                var file := RecordingFileName(now);
                effects == old(effects) + [WavWritten(file, SampleRate, audioData)]
                           + AfterPipeline(Polished(service, file, transcriptionModel, processModel,
                                                    transcriptionPromptText, language),
                                           file, io, CoordinatesSet())
    {
      var file := RecordingFileName(now);
      if !io.writeWorks {
        return;
      }
      effects := effects + [WavWritten(file, SampleRate, audioData)];
      ProcessAudio(file, io);
    }

    /** The first half of `stop_recording`: clears the flag, stops then closes the stream
        and restores the system audio; a failing stop or close ends it there. */
    method EndCapture(io: HostIO)
      requires Valid() && recording
      modifies this`recording, this`stream, this`effects, audioCtrl
      ensures Valid() && !recording
      ensures !io.stopWorks ==> stream == old(stream) && effects == old(effects) && unchanged(audioCtrl)
      ensures io.stopWorks && !io.closeWorks ==>
                stream == Stopped && effects == old(effects) + [StreamStopped] && unchanged(audioCtrl)
      ensures io.stopWorks && io.closeWorks ==>
                stream == Closed && audioCtrl.originalVolume == None && !audioCtrl.muted
                && audioCtrl.level == old(audioCtrl.originalVolume).value
                && effects == old(effects) + [StreamStopped, StreamClosed, Restored]
    {
      recording := false;
      if !io.stopWorks {
        return;
      }
      stream := Stopped;
      effects := effects + [StreamStopped];
      if !io.closeWorks {
        return;
      }
      stream := Closed;
      effects := effects + [StreamClosed];
      audioCtrl.Restore();
      effects := effects + [Restored];
    }

    /** `toggle_recording`: starts when not recording and stops when recording, so the flag
        alternates on every call. */
    method ToggleRecording(now: DateTime, io: HostIO)
      requires Valid() && now.Valid()
      modifies this`recording, this`audioData, this`stream, this`effects, audioCtrl
      ensures Valid() && recording == !old(recording)
      ensures !old(recording) ==>
                audioData == [] && audioCtrl.muted && audioCtrl.level == old(audioCtrl.level)
                && audioCtrl.originalVolume == Some(old(audioCtrl.level))
                && effects == old(effects) + [Silenced, StreamOpened(Channels, SampleRate), StreamStarted]
      ensures old(recording) ==> audioData == old(audioData)
      ensures old(recording) && !(io.stopWorks && io.closeWorks) ==> unchanged(audioCtrl)
      ensures old(recording) && io.stopWorks && io.closeWorks ==>
                !audioCtrl.muted && audioCtrl.originalVolume == None
                && audioCtrl.level == old(audioCtrl.originalVolume).value
      ensures old(recording) && io.stopWorks && io.closeWorks && io.writeWorks ==>
                |effects| >= |old(effects)| + 4
                && effects[..|old(effects)| + 4]
                   == old(effects) + [StreamStopped, StreamClosed, Restored,
                                      WavWritten(RecordingFileName(now), SampleRate, old(audioData))]
    {
      if !recording {
        StartRecording();
      } else {
        StopRecording(now, io);
      }
    }

    /** `toggle_capture`: enters capture mode, or leaves it when already in it. */
    method ToggleCapture()
      modifies this`capturing
      ensures capturing == !old(capturing)
    {
      if !capturing {
        capturing := true;
      } else {
        ResetCaptureMode();
      }
    }

    /** `capture_click`: writes the click's screen coordinates into the two entries, as
        `str` prints them, and leaves capture mode. */
    method CaptureClick(xRoot: int, yRoot: int)
      modifies this`xEntry, this`yEntry, this`capturing
      ensures xEntry == IntToString(xRoot) && yEntry == IntToString(yRoot) && !capturing
    {
      xEntry := IntToString(xRoot);
      yEntry := IntToString(yRoot);
      ResetCaptureMode();
    }

    /** `reset_capture_mode`. */
    method ResetCaptureMode()
      modifies this`capturing
      ensures !capturing
    {
      capturing := false;
    }

    /** `execute_sequence`: with an empty or non-integer entry nothing is injected;
        otherwise enter, left click at (x, y), paste, enter, in that order, of which the
        first `injectionsOk` succeed (a failing injection ends the sequence). */
    method ExecuteSequence(injectionsOk: nat)
      modifies this`effects
      ensures xEntry == "" || yEntry == "" || ParseInt(xEntry).None? || ParseInt(yEntry).None?
              ==> effects == old(effects)
      ensures xEntry != "" && yEntry != "" && ParseInt(xEntry).Some? && ParseInt(yEntry).Some?
              ==> effects == old(effects)
                             + InjectionSequence(ParseInt(xEntry).value, ParseInt(yEntry).value)[..Min(injectionsOk, 4)]
    {
      if xEntry == "" || yEntry == "" {
        return;
      }
      var px := ParseInt(xEntry);
      var py := ParseInt(yEntry);
      if px.None? || py.None? {
        return;
      }
      Inject(px.value, py.value, injectionsOk);
    }

    /** The injections of `execute_sequence` once the coordinates are read: enter, left
        click at (x, y), paste, enter, of which the first `injectionsOk` succeed. */
    method Inject(x: int, y: int, injectionsOk: nat)
      modifies this`effects
      ensures effects == old(effects) + InjectionSequence(x, y)[..Min(injectionsOk, 4)]
    {
      ghost var steps := InjectionSequence(x, y);
      if injectionsOk == 0 {
        assert steps[..Min(injectionsOk, 4)] == [];
        return;
      }
      effects := effects + [PressEnter];
      if injectionsOk == 1 {
        assert steps[..Min(injectionsOk, 4)] == [PressEnter];
        return;
      }
      effects := effects + [LeftClick(x, y)];
      if injectionsOk == 2 {
        assert steps[..Min(injectionsOk, 4)] == [PressEnter, LeftClick(x, y)];
        return;
      }
      effects := effects + [Paste];
      if injectionsOk == 3 {
        assert steps[..Min(injectionsOk, 4)] == [PressEnter, LeftClick(x, y), Paste];
        return;
      }
      effects := effects + [PressEnter];
      assert steps[..Min(injectionsOk, 4)] == steps;
    }
  }

  /** A captured click is what the sequence clicks: after `capture_click(x, y)`, a sequence
      whose injections all succeed performs exactly enter, click at (x, y), paste, enter. */
  method CapturedClickIsReplayed(r: VoiceRecorder, x: int, y: int)
    modifies r
    ensures r.effects == old(r.effects) + [PressEnter, LeftClick(x, y), Paste, PressEnter]
  {
    r.CaptureClick(x, y);
    ParseIntOfIntToString(x);
    ParseIntOfIntToString(y);
    r.ExecuteSequence(4);
  }

  /** A whole session: start, one block of samples, stop. When the stream stops and closes,
      the system audio ends where it was, unmuted and with no snapshot, and a WAV file that
      is written holds exactly the block's first channel; when it does not, the system
      audio stays muted with the level held as the snapshot. */
  method RecordOneBlock(r: VoiceRecorder, block: seq<seq<real>>, now: DateTime, io: HostIO)
    requires r.Valid() && !r.recording && now.Valid()
    requires forall i :: 0 <= i < |block| ==> |block[i]| >= 1
    modifies r, r.audioCtrl
    ensures r.Valid() && !r.recording && r.audioCtrl.level == old(r.audioCtrl.level)
    ensures io.stopWorks && io.closeWorks ==> !r.audioCtrl.muted && r.audioCtrl.originalVolume == None
    ensures !(io.stopWorks && io.closeWorks) ==>
              r.audioCtrl.muted && r.audioCtrl.originalVolume == Some(old(r.audioCtrl.level))
    ensures io.stopWorks && io.closeWorks && io.writeWorks ==>
              && |old(r.effects)| + 7 <= |r.effects|
              && r.effects[|old(r.effects)| + 6].WavWritten?
              && r.effects[|old(r.effects)| + 6].samples
                 == seq(|block|, i requires 0 <= i < |block| => block[i][0])
  {
    r.ToggleRecording(now, io);
    r.OnAudioBlock(block);
    r.ToggleRecording(now, io);
  }
}

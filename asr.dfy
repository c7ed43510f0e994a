/**
 * The speech-recognition screen: a live session whose duration counter is clamped at three
 * minutes, file transcription through an external service, and a most-recent-first log of past
 * sessions capped at fifteen entries.
 */
module Asr {
  import opened Wrappers
  import opened Seqs
  import TimeFormat

  const MAX_DURATION: nat := 180
  const HISTORY_CAP: nat := 15

  /** The text the simulated live transcription shows 100 ms after a session starts. */
  const STREAM_TEXT: string := "语音识别正在运行中... 系统正在实时捕获音频并利用 Gemini 3 Flash 模型进行流式转录。您可以直接说话，文字会即刻出现在下方的文本区域内，字体大小已调整为 1.25rem 以便阅读。"

  /** The error shown when a failed transcription carries no message of its own. */
  const UPLOAD_FAILED: string := "文件转录失败"

  /** One archived session: the local time it was archived, its text and its duration in seconds. */
  datatype Entry = Entry(time: string, text: string, duration: nat)

  /** The badge of a log entry: its duration as `mm:ss`, or FILE for a transcribed upload. */
  function Badge(e: Entry): (r: string)
    ensures e.duration == 0 ==> r == "FILE"
    ensures e.duration > 0 ==> TimeFormat.ParseTime(r) == Some(e.duration)
  {
    if e.duration > 0 then TimeFormat.FormatTimeRoundTrip(e.duration); TimeFormat.FormatTime(e.duration)
    else "FILE"
  }

  /** The error text of a failed upload: the thrown message, or the default when it is empty. */
  function UploadError(message: string): (r: string)
    ensures r != ""
    ensures message != "" ==> r == message
  {
    if message != "" then message else UPLOAD_FAILED
  }

  class AsrScreen {
    var isRecording: bool
    var isProcessing: bool
    var duration: nat
    var transcription: string
    var error: Option<string>
    var history: seq<Entry>
    var sessionKey: nat

    /** The counter never passes the clamp and the log never passes its cap. */
    ghost predicate Valid()
      reads this
    {
      duration <= MAX_DURATION && |history| <= HISTORY_CAP
    }

    constructor ()
      ensures Valid()
      ensures !isRecording && !isProcessing && duration == 0 && transcription == ""
      ensures error == None && history == [] && sessionKey == 0
    {
      isRecording, isProcessing, duration, transcription := false, false, 0, "";
      error, history, sessionKey := None, [], 0;
    }

    /** `addToHistory`: the new entry goes first, the older ones follow in order, the oldest beyond 15 drop. */
    method AddToHistory(text: string, dur: nat, time: string)
      requires Valid()
      modifies this`history
      ensures Valid()
      ensures history == PrependCapped(Entry(time, text, dur), old(history), HISTORY_CAP)
      ensures history[0] == Entry(time, text, dur)
      ensures forall i :: 1 <= i < |history| ==> history[i] == old(history)[i - 1]
    {
      history := PrependCapped(Entry(time, text, dur), history, HISTORY_CAP);
    }

    /** `deleteHistoryItem(index)`: removes the entry at that index and keeps the others in order. */
    method DeleteHistoryItem(index: int)
      requires Valid()
      modifies this`history
      ensures Valid()
      ensures history == RemoveAt(old(history), index)
      ensures 0 <= index < |old(history)| ==>
        multiset(history) + multiset{old(history)[index]} == multiset(old(history))
    {
      if 0 <= index < |history| {
        RemoveAtMultiset(history, index);
      }
      history := RemoveAt(history, index);
    }

    /** One second of the recording interval, which runs only while recording. */
    method Tick()
      requires Valid() && isRecording
      modifies this`duration, this`isRecording
      ensures Valid()
      ensures old(duration) < MAX_DURATION ==> duration == old(duration) + 1 && isRecording
      ensures old(duration) >= MAX_DURATION ==> duration == MAX_DURATION && !isRecording
    {
      if duration >= MAX_DURATION {
        HandleStop();
        duration := MAX_DURATION;
      } else {
        duration := duration + 1;
      }
    }

    /** `handleStart`: archive a non-empty transcription with its duration, then start a fresh session. */
    method HandleStart(time: string)
      requires Valid()
      modifies this`history, this`transcription, this`duration, this`error, this`sessionKey,
        this`isRecording
      ensures Valid()
      ensures history == if old(transcription) != ""
        then PrependCapped(Entry(time, old(transcription), old(duration)), old(history), HISTORY_CAP)
        else old(history)
      ensures transcription == "" && duration == 0 && error == None
      ensures sessionKey == old(sessionKey) + 1 && isRecording
    {
      if transcription != "" {
        AddToHistory(transcription, duration, time);
      }
      transcription := "";
      duration := 0;
      error := None;
      sessionKey := sessionKey + 1;
      isRecording := true;
    }

    /** The timeout that `handleStart` schedules: the simulated live text appears. */
    method StreamingTranscriptionArrives()
      modifies this`transcription
      ensures transcription == STREAM_TEXT
    {
      transcription := STREAM_TEXT;
    }

    /** `handleStop`. */
    method HandleStop()
      modifies this`isRecording
      ensures !isRecording
    {
      isRecording := false;
    }

    /** The start/stop button, which is disabled while a file is being processed. */
    method PressRecordButton(time: string)
      requires Valid() && !isProcessing
      modifies this`history, this`transcription, this`duration, this`error, this`sessionKey,
        this`isRecording
      ensures Valid()
      ensures old(isRecording) ==> (!isRecording && history == old(history) &&
        transcription == old(transcription) && duration == old(duration) && sessionKey == old(sessionKey) &&
        error == old(error))
      ensures !old(isRecording) ==> (isRecording && transcription == "" && duration == 0 &&
        error == None && sessionKey == old(sessionKey) + 1)
      ensures !old(isRecording) ==> history == if old(transcription) != ""
        then PrependCapped(Entry(time, old(transcription), old(duration)), old(history), HISTORY_CAP)
        else old(history)
    {
      if isRecording {
        HandleStop();
      } else {
        HandleStart(time);
      }
    }

    /** `clearTranscription`: archive only a non-empty transcription of a stopped session, then reset. */
    method ClearTranscription(time: string)
      requires Valid()
      modifies this`history, this`transcription, this`duration, this`error, this`sessionKey
      ensures Valid()
      ensures history == if old(transcription) != "" && !isRecording
        then PrependCapped(Entry(time, old(transcription), old(duration)), old(history), HISTORY_CAP)
        else old(history)
      ensures transcription == "" && duration == 0 && error == None
      ensures sessionKey == old(sessionKey) + 1
    {
      if transcription != "" && !isRecording {
        AddToHistory(transcription, duration, time);
      }
      transcription := "";
      duration := 0;
      error := None;
      sessionKey := sessionKey + 1;
    }

    /** The synchronous start of `handleFileUpload`; nothing happens when no file was chosen. */
    method BeginFileUpload(hasFile: bool)
      modifies this`isProcessing, this`error, this`transcription, this`sessionKey
      ensures !hasFile ==> (isProcessing == old(isProcessing) && error == old(error) &&
        transcription == old(transcription) && sessionKey == old(sessionKey))
      ensures hasFile ==> (isProcessing && error == None && transcription == "" &&
        sessionKey == old(sessionKey) + 1)
    {
      if !hasFile {
        return;
      }
      isProcessing := true;
      error := None;
      transcription := "";
      sessionKey := sessionKey + 1;
    }

    /**
     * The completion of `handleFileUpload` with the transcription service's outcome: a result is
     * shown and logged with duration 0; an error is shown and logs nothing. Processing ends either way.
     */
    method FinishFileUpload(outcome: Result<string>, time: string)
      requires Valid()
      modifies this`transcription, this`history, this`error, this`isProcessing
      ensures Valid() && !isProcessing
      ensures outcome.Ok? ==> (transcription == outcome.value && error == old(error) &&
        history == PrependCapped(Entry(time, outcome.value, 0), old(history), HISTORY_CAP) &&
        Badge(history[0]) == "FILE")
      ensures outcome.Err? ==> (error == Some(UploadError(outcome.message)) &&
        history == old(history) && transcription == old(transcription))
    {
      match outcome {
        case Ok(text) =>
          transcription := text;
          AddToHistory(text, 0, time);
        case Err(message) =>
          error := Some(UploadError(message));
      }
      isProcessing := false;
    }

    /** Clicking a log entry shows its text again under a new session key. */
    method RestoreFromHistory(index: nat)
      requires index < |history|
      modifies this`transcription, this`sessionKey
      ensures transcription == history[index].text && sessionKey == old(sessionKey) + 1
    {
      transcription := history[index].text;
      sessionKey := sessionKey + 1;
    }
  }
}

/**
 * The recording button driven by the parent's `isRecording`: a click asks the parent to stop
 * or to start, and the counter ticks while recording and is reset when recording ends.
 */
module DynamicVoiceButton {
  datatype Callback = OnStart | OnStop

  /** `handleClick`: the callbacks one click invokes. */
  function ClickCallbacks(isRecording: bool): (r: seq<Callback>)
    ensures |r| == 1
    ensures OnStop in r <==> isRecording
    ensures OnStart in r <==> !isRecording
  {
    if isRecording then [OnStop] else [OnStart]
  }

  class Button {
    var isRecording: bool
    var time: nat

    ghost predicate Valid()
      reads this
    {
      !isRecording ==> time == 0
    }

    /**
     * Mounting with the parent's flag: the counter starts at its initial 0; the mount effect
     * starts the interval when recording and otherwise sets the counter to that same 0.
     */
    constructor (recording: bool)
      ensures Valid()
      ensures isRecording == recording && time == 0
    {
      isRecording, time := recording, 0;
    }

    /** A new `isRecording` from the parent; the effect runs only when it changed. */
    method RecordingChanged(recording: bool)
      requires Valid()
      modifies this
      ensures Valid()
      ensures isRecording == recording
      ensures !recording ==> time == 0
      ensures recording ==> time == old(time)
    {
      if recording == isRecording {
        return;
      }
      isRecording := recording;
      if !recording {
        time := 0;
      }
    }

    /** The one-second interval, live only while recording. */
    method Tick()
      requires Valid() && isRecording
      modifies this`time
      ensures Valid()
      ensures time == old(time) + 1
    {
      time := time + 1;
    }
  }
}

/**
 * The voice input control: a click toggles `submitted` (or leaves demo mode), the `submitted`
 * effect reports the start once and the stop with the elapsed seconds, and a one-second tick
 * counts while submitted. The demo loop's timeouts are explicit steps.
 */
module AiVoiceInput {
  /** The callbacks the control has invoked, in order. */
  datatype Event = Started | Stopped(duration: nat)

  /** The log a start/stop history may produce: each stop follows a start and reports a positive duration. */
  ghost predicate WellReported(events: seq<Event>)
  {
    forall i :: 0 <= i < |events| && events[i].Stopped? ==>
      events[i].duration > 0 && i > 0 && events[i - 1] == Started
  }

  class VoiceInput {
    var submitted: bool
    var time: nat
    var isDemo: bool
    var events: seq<Event>

    ghost predicate Valid()
      reads this
    {
      (!submitted ==> time == 0) &&
      (submitted ==> |events| > 0 && events[|events| - 1] == Started) &&
      WellReported(events)
    }

    /** Mounting: nothing submitted, so the effect only resets the counter. */
    constructor (demoMode: bool)
      ensures Valid()
      ensures !submitted && time == 0 && isDemo == demoMode && events == []
    {
      submitted, time, isDemo, events := false, 0, demoMode, [];
    }

    /** The `submitted` effect, run after `submitted` changed. */
    method SubmittedEffect()
      requires (!submitted ==> |events| > 0 && events[|events| - 1] == Started) || time == 0
      requires WellReported(events)
      modifies this`time, this`events
      ensures Valid()
      ensures submitted ==> events == old(events) + [Started] && time == old(time)
      ensures !submitted ==> (time == 0 &&
        events == old(events) + (if old(time) > 0 then [Stopped(old(time))] else []))
    {
      if submitted {
        events := events + [Started];
      } else {
        if time > 0 {
          events := events + [Stopped(time)];
        }
        time := 0;
      }
    }

    /** `setSubmitted(v)` followed by the effect when the value changed. */
    method SetSubmitted(v: bool)
      requires Valid()
      modifies this`submitted, this`time, this`events
      ensures Valid()
      ensures submitted == v
      ensures v == old(submitted) ==> time == old(time) && events == old(events)
      ensures v && !old(submitted) ==> events == old(events) + [Started] && time == 0
      ensures !v && old(submitted) ==> (time == 0 &&
        events == old(events) + (if old(time) > 0 then [Stopped(old(time))] else []))
    {
      if v == submitted {
        return;
      }
      submitted := v;
      SubmittedEffect();
    }

    /** `handleClick`: in demo mode the click leaves demo and forces `submitted` off; otherwise it toggles. */
    method HandleClick()
      requires Valid()
      modifies this`isDemo, this`submitted, this`time, this`events
      ensures Valid()
      ensures old(isDemo) ==> !isDemo && !submitted
      ensures !old(isDemo) ==> isDemo == false && submitted == !old(submitted)
      ensures submitted && !old(submitted) ==> events == old(events) + [Started] && time == 0
      ensures !submitted && old(submitted) ==> (time == 0 &&
        events == old(events) + (if old(time) > 0 then [Stopped(old(time))] else []))
      ensures submitted == old(submitted) ==> events == old(events)
    {
      if isDemo {
        isDemo := false;
        SetSubmitted(false);
      } else {
        SetSubmitted(!submitted);
      }
    }

    /** The one-second interval, live only while submitted. */
    method Tick()
      requires Valid() && submitted
      modifies this`time
      ensures Valid()
      ensures time == old(time) + 1
    {
      time := time + 1;
    }

    /** A timeout of the demo loop: `runAnimation` sets `submitted`, the timeout after it clears it. */
    method DemoStep(v: bool)
      requires Valid() && isDemo
      modifies this`submitted, this`time, this`events
      ensures Valid()
      ensures submitted == v && isDemo
      ensures v == old(submitted) ==> time == old(time) && events == old(events)
      ensures v && !old(submitted) ==> events == old(events) + [Started] && time == 0
      ensures !v && old(submitted) ==> (time == 0 &&
        events == old(events) + (if old(time) > 0 then [Stopped(old(time))] else []))
    {
      SetSubmitted(v);
    }
  }
}

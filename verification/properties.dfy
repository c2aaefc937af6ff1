/** What a stop-signal trial guarantees over any sequence of events. */
module TrialProperties {
  import opened Wrappers
  import opened Parameters
  import opened Markup
  import opened Timers
  import opened Outcome
  import opened TrialMachine

  /** A trial hands on at most one record, and once it has, no event changes anything. */
  lemma AtMostOneRecord(spec: TrialSpec, events: seq<Event>, later: seq<Event>)
    ensures |Run(Init(spec), events).output| <= 1
    ensures Finished(Run(Init(spec), events)) ==>
      Run(Run(Init(spec), events), later) == Run(Init(spec), events)
  {
  }

  /** A go trial never shows the second stimulus: its swap is never scheduled. */
  lemma GoTrialNeverShowsSecond(spec: TrialSpec, events: seq<Event>)
    requires IsGo(spec)
    ensures forall t :: t in Schedule(spec) ==> t.kind != ShowSecond
    ensures Run(Init(spec), events).screen != SecondStimulus
  {
  }

  /** With a null fixation duration the first stimulus is never swapped in. */
  lemma NoFixationDurationNeverShowsFirst(spec: TrialSpec, events: seq<Event>)
    requires spec.fixationDuration.None?
    ensures Run(Init(spec), events).screen != FirstStimulus
  {
  }

  /** With no keys allowed no listener is armed, so no response is recorded and the record's
      key is null. */
  lemma NoKeysNoResponse(spec: TrialSpec, events: seq<Event>)
    requires spec.choices == NoKeys
    ensures !Init(spec).listening
    ensures Run(Init(spec), events).response.None?
    ensures Finished(Run(Init(spec), events)) ==>
      Run(Init(spec), events).output[0].keyPress.None? && Run(Init(spec), events).output[0].rawRt.None?
  {
  }

  /** The recorded response, if any, is the first key among the choices that was pressed,
      and only a trial whose listener was armed records one. */
  lemma {:induction false} RecordedIsFirstQualifying(s: TrialState, events: seq<Event>)
    requires Inv(s) && s.response.None?
    ensures Run(s, events).response.Some? ==>
      s.listening && Run(s, events).response == FirstQualifying(s.spec.choices, events)
    decreases |events|
  {
    if events != [] {
      var next := Step(s, events[0]);
      if next.response.Some? {
        assert Run(s, events) == Run(next, events[1..]);
      } else {
        RecordedIsFirstQualifying(next, events[1..]);
        match events[0]
        case KeyDown(key, time) =>
          assert !(s.listening && Qualifies(s.spec.choices, key));
        case Elapsed(_) =>
      }
    }
  }

  /** From a trial's start, the record's key and time are those of the first allowed key. */
  lemma FirstResponseIsRecorded(spec: TrialSpec, events: seq<Event>)
    ensures var r := Run(Init(spec), events);
      Finished(r) && r.response.Some? ==>
        r.output == [Record(spec, FirstQualifying(spec.choices, events))]
  {
    RecordedIsFirstQualifying(Init(spec), events);
  }

  /** A live trial ends only by its deadline (when it has one) or by an allowed key while
      responses end the trial. */
  lemma {:induction false} EndedByDeadlineOrResponse(s: TrialState, events: seq<Event>)
    requires Inv(s) && !Finished(s)
    ensures Finished(Run(s, events)) ==>
      || (s.spec.trialDuration.Some? && Elapsed(Deadline) in events)
      || (s.spec.responseEndsTrial &&
          exists key, time :: KeyDown(key, time) in events && Qualifies(s.spec.choices, key))
    decreases |events|
  {
    if events != [] {
      var next := Step(s, events[0]);
      assert Run(s, events) == Run(next, events[1..]);
      if !Finished(next) {
        EndedByDeadlineOrResponse(next, events[1..]);
        if Finished(Run(s, events)) && !(s.spec.trialDuration.Some? && Elapsed(Deadline) in events) {
          var key, time :| KeyDown(key, time) in events[1..] && Qualifies(s.spec.choices, key);
          assert KeyDown(key, time) in events;
        }
      } else if events[0].KeyDown? {
        assert KeyDown(events[0].key, events[0].time) in events;
      }
    }
  }

  /**
   * A trial with no deadline whose responses cannot end it (no keys allowed, or
   * response_ends_trial false) never ends and never hands on a record.
   */
  lemma NeverEndsWithoutDeadline(spec: TrialSpec, events: seq<Event>)
    requires spec.trialDuration.None?
    requires spec.choices == NoKeys || !spec.responseEndsTrial
    ensures !Finished(Run(Init(spec), events))
  {
    EndedByDeadlineOrResponse(Init(spec), events);
  }

  /** The deadline, while pending, ends the trial with the response recorded so far. */
  lemma DeadlineEndsTrial(s: TrialState, due: int)
    requires Inv(s) && Timer(Deadline, due) in s.pending
    ensures !Finished(s)
    ensures var r := Step(s, Elapsed(Deadline));
      Finished(r) && r.output == [Record(s.spec, s.response)] && r.response == s.response
      && r.pending == [] && !r.listening && Html(r.spec, r.screen) == ""
  {
  }

  /**
   * An allowed key on an armed listener is recorded. If responses end the trial it ends at
   * once with that response; otherwise the trial goes on with its timers untouched, and
   * whenever it ends later, its record carries that first response.
   */
  lemma ResponseEndsTrialOrIsKept(s: TrialState, key: Key, time: int, later: seq<Event>)
    requires Inv(s) && s.listening && Qualifies(s.spec.choices, key)
    ensures var r := Step(s, KeyDown(key, time));
      r.response == Some(Response(key, time)) && !r.listening
    ensures s.spec.responseEndsTrial ==>
      Step(s, KeyDown(key, time)).output == [Record(s.spec, Some(Response(key, time)))]
    ensures !s.spec.responseEndsTrial ==>
      var r := Step(s, KeyDown(key, time));
      && !Finished(r) && r.pending == s.pending && r.screen == s.screen
      && (Finished(Run(r, later)) ==> Run(r, later).output == [Record(s.spec, Some(Response(key, time)))])
  {
  }

  /**
   * A pending swap timer puts its markup on the display: the first stimulus (with the
   * prompt) or the second stimulus. Only that timer leaves the pending set; the listener,
   * the response and the records are untouched.
   */
  lemma SwapTimerShowsItsMarkup(s: TrialState, kind: TimerKind, due: int)
    requires Inv(s) && kind != Deadline && Timer(kind, due) in s.pending
    ensures var r := Step(s, Elapsed(kind));
      && !Finished(s) && !Finished(r)
      && Html(r.spec, r.screen) == (if kind == ShowFirst then FirstMarkup(s.spec) else SecondMarkup(s.spec))
      && (forall t :: t in r.pending <==> t in s.pending && t.kind != kind)
      && r.listening == s.listening && r.response == s.response && r.output == s.output
  {
  }

  /**
   * What keeps a live trial responsive: its deadline, when it has a trial duration, is
   * still pending, and its listener is still armed until a response is recorded, unless no
   * keys are allowed.
   */
  ghost predicate Live(s: TrialState)
  {
    && (!Finished(s) && s.spec.trialDuration.Some? ==>
          Timer(Deadline, s.spec.trialDuration.value + JsNumber(s.spec.fixationDuration)) in s.pending)
    && (!Finished(s) && s.response.None? && s.spec.choices != NoKeys ==> s.listening)
  }

  lemma StepKeepsLive(s: TrialState, e: Event)
    requires Inv(s) && Live(s)
    ensures Live(Step(s, e))
  {
  }

  /** Every state a trial reaches from its start is live. */
  lemma {:induction false} RunKeepsLive(s: TrialState, events: seq<Event>)
    requires Inv(s) && Live(s)
    ensures Live(Run(s, events))
    decreases |events|
  {
    if events != [] {
      StepKeepsLive(s, events[0]);
      RunKeepsLive(Step(s, events[0]), events[1..]);
    }
  }

  /** However the events went, a trial with a trial duration that has not ended still has its
      deadline pending, and that deadline ends it with the response recorded so far. */
  lemma DeadlineEndsEveryTimedTrial(spec: TrialSpec, events: seq<Event>)
    requires spec.trialDuration.Some?
    ensures var s := Run(Init(spec), events);
      !Finished(s) ==>
        && Timer(Deadline, spec.trialDuration.value + JsNumber(spec.fixationDuration)) in s.pending
        && Step(s, Elapsed(Deadline)).output == [Record(spec, s.response)]
  {
    RunKeepsLive(Init(spec), events);
  }

  /** However the events went, a trial that has not ended and has no response yet records the
      next allowed key, with its time. */
  lemma LiveTrialRecordsNextKey(spec: TrialSpec, events: seq<Event>, key: Key, time: int)
    requires Qualifies(spec.choices, key)
    ensures var s := Run(Init(spec), events);
      !Finished(s) && s.response.None? ==>
        && s.listening
        && Step(s, KeyDown(key, time)).response == Some(Response(key, time))
        && (spec.responseEndsTrial ==>
              Step(s, KeyDown(key, time)).output == [Record(spec, Some(Response(key, time)))])
  {
    RunKeepsLive(Init(spec), events);
  }

  /** A key that is not among the choices, or that arrives after the listener disarmed,
      changes nothing. */
  lemma IgnoredKeyChangesNothing(s: TrialState, key: Key, time: int)
    requires Inv(s) && (!s.listening || !Qualifies(s.spec.choices, key))
    ensures Step(s, KeyDown(key, time)) == s
  {
  }
}

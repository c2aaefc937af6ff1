/**
 * `plugin.trial` as an object: the closure's variables become fields, the timer and
 * listener callbacks become methods the event loop calls, and `end_trial` and
 * `after_response` keep their order of steps. Each method is proved to make the
 * state-machine step of its event.
 */
module Plugin {
  import opened Wrappers
  import opened Parameters
  import opened Markup
  import opened Timers
  import opened Outcome
  import opened TrialMachine

  class Trial {
    const spec: TrialSpec
    /** Which markup `display_element.innerHTML` holds. */
    var screen: Screen
    /** Timers registered with `pluginAPI.setTimeout` that have not fired or been cleared. */
    var pending: seq<Timer>
    /** Whether the keyboard listener is armed. */
    var listening: bool
    /** `response`: null until the first allowed key. */
    var response: Option<Response>
    /** The records passed to `jsPsych.finishTrial`. */
    var output: seq<TrialData>

    ghost function State(): TrialState
      reads this
    {
      TrialState(spec, screen, pending, listening, response, output)
    }

    ghost predicate Valid()
      reads this
    {
      Inv(State())
    }

    /** The display element's content. */
    function Display(): (html: string)
      reads this
      requires Valid()
      ensures html == "" <==> output != []
    {
      Html(spec, screen)
    }

    /** `plugin.trial`: build the markup, show the fixation, arm the listener, register the
        timers each under its own condition. */
    constructor Start(spec: TrialSpec)
      ensures Valid() && State() == Init(spec)
      ensures screen == Fixation && pending == Schedule(spec) && response.None? && output == []
      ensures listening <==> spec.choices != NoKeys
    {
      this.spec := spec;
      screen := Fixation;
      response := None;
      output := [];
      listening := spec.choices != NoKeys;
      var timers: seq<Timer> := [];
      if spec.fixationDuration.Some? {
        timers := timers + [Timer(ShowFirst, spec.fixationDuration.value)];
      }
      if spec.stimulus1 != spec.stimulus2 {
        if spec.isi.Some? {
          timers := timers + [Timer(ShowSecond, spec.isi.value + JsNumber(spec.fixationDuration))];
        }
      }
      if spec.trialDuration.Some? {
        timers := timers + [Timer(Deadline, spec.trialDuration.value + JsNumber(spec.fixationDuration))];
      }
      assert timers == Schedule(spec);
      pending := timers;
      new;
      assert State() == Init(spec);
    }

    /** `end_trial`. */
    method EndTrial()
      requires Valid() && output == []
      modifies this
      ensures Valid() && State() == Finish(old(State()))
      ensures output == [Record(spec, old(response))] && response == old(response)
      ensures pending == [] && !listening && screen == Blank
    {
      pending := [];
      listening := false;
      var data := Record(spec, response);
      screen := Blank;
      output := output + [data];
    }

    /** `after_response`, called by the listener, which has already disarmed itself. */
    method AfterResponse(key: Key, rt: int)
      requires Valid() && output == [] && !listening && Qualifies(spec.choices, key)
      modifies this
      ensures Valid() && State() == Respond(old(State()), key, rt)
      ensures response == if old(response).None? then Some(Response(key, rt)) else old(response)
      ensures output != [] <==> spec.responseEndsTrial
    {
      if response.None? {
        response := Some(Response(key, rt));
      }
      if spec.responseEndsTrial {
        EndTrial();
      }
    }

    /** The listener hears `key` at `time`. */
    method KeyPress(key: Key, time: int)
      requires Valid()
      modifies this
      ensures Valid() && State() == Step(old(State()), KeyDown(key, time))
      ensures old(response).Some? ==> response == old(response)
      ensures old(output) != [] ==> unchanged(this)
    {
      if listening && Qualifies(spec.choices, key) {
        listening := false;
        AfterResponse(key, time);
      }
    }

    /** The event loop runs the timer of `kind`, if it is still pending. */
    method FireTimer(kind: TimerKind)
      requires Valid()
      modifies this
      ensures Valid() && State() == Step(old(State()), Elapsed(kind))
      ensures old(output) != [] ==> unchanged(this)
      ensures kind == ShowSecond && IsGo(spec) ==> unchanged(this)
    {
      if Scheduled(pending, kind) {
        pending := RemoveKind(pending, kind);
        match kind
        case ShowFirst =>
          screen := FirstStimulus;
        case ShowSecond =>
          screen := SecondStimulus;
        case Deadline =>
          EndTrial();
      }
    }
  }
}

/**
 * One trial of the stop-signal plugin as a state machine over values. A state holds what
 * `plugin.trial`'s closure holds: what the display shows, the timers still pending, whether
 * the keyboard listener is armed, the recorded response, and the records handed to
 * `jsPsych.finishTrial` so far. Events are a timer firing or a key being pressed; the
 * browser's event loop may deliver them in any order, so every property below holds for
 * every order of events.
 */
module TrialMachine {
  import opened Wrappers
  import opened Parameters
  import opened Markup
  import opened Timers
  import opened Outcome

  datatype Event = Elapsed(kind: TimerKind) | KeyDown(key: Key, time: int)

  datatype TrialState = TrialState(
    spec: TrialSpec,
    screen: Screen,
    pending: seq<Timer>,
    listening: bool,
    response: Option<Response>,
    output: seq<TrialData>)

  /** The trial has ended once `end_trial` has handed a record on. */
  predicate Finished(s: TrialState)
  {
    s.output != []
  }

  /** What holds of every state a trial can reach. */
  ghost predicate Inv(s: TrialState)
  {
    && |s.output| <= 1
    && (forall t :: t in s.pending ==> t in Schedule(s.spec))
    && (Finished(s) ==>
          s.pending == [] && !s.listening && s.screen == Blank && s.output == [Record(s.spec, s.response)])
    && (!Finished(s) ==> s.screen != Blank)
    && (s.listening ==> s.spec.choices != NoKeys && s.response.None?)
    && (s.response.Some? ==> Qualifies(s.spec.choices, s.response.value.key))
    && (IsGo(s.spec) ==> s.screen != SecondStimulus)
    && (s.spec.fixationDuration.None? ==> s.screen != FirstStimulus)
  }

  /** The state `plugin.trial` leaves behind when it returns. */
  function Init(spec: TrialSpec): (s: TrialState)
    ensures Inv(s) && !Finished(s)
    ensures s.listening <==> spec.choices != NoKeys
    ensures s.response.None?
  {
    TrialState(spec, Fixation, Schedule(spec), spec.choices != NoKeys, None, [])
  }

  /** `end_trial`: cancel the timers and the listener, build the record, blank the display,
      hand the record on. */
  function Finish(s: TrialState): (r: TrialState)
  {
    s.(pending := [], listening := false, screen := Blank,
       output := s.output + [Record(s.spec, s.response)])
  }

  /** `after_response`: keep the response only if none is recorded yet, then end the trial
      if responses end it. */
  function Respond(s: TrialState, key: Key, rt: int): (r: TrialState)
  {
    var kept := if s.response.None? then s.(response := Some(Response(key, rt))) else s;
    if s.spec.responseEndsTrial then Finish(kept) else kept
  }

  /** A timer fires, if it is still pending: it leaves the pending set and runs its callback. */
  function Fire(s: TrialState, kind: TimerKind): (r: TrialState)
  {
    if !Scheduled(s.pending, kind) then s
    else
      var rest := s.(pending := RemoveKind(s.pending, kind));
      match kind
      case ShowFirst => rest.(screen := FirstStimulus)
      case ShowSecond => rest.(screen := SecondStimulus)
      case Deadline => Finish(rest)
  }

  /** A key is pressed. The single-shot listener (`persist: false`) reports only a key among
      the choices, and disarms itself before calling `after_response`. */
  function Press(s: TrialState, key: Key, time: int): (r: TrialState)
  {
    if s.listening && Qualifies(s.spec.choices, key) then Respond(s.(listening := false), key, time)
    else s
  }

  function Step(s: TrialState, e: Event): (r: TrialState)
    requires Inv(s)
    ensures Inv(r) && r.spec == s.spec
    // a record once handed on stays handed on, and no second one follows a first
    ensures s.output <= r.output
    // after end_trial every timer and the listener are cancelled: nothing changes any more
    ensures Finished(s) ==> r == s
    // a recorded response is never overwritten
    ensures s.response.Some? ==> r.response == s.response
    // the listener is never re-armed
    ensures r.listening ==> s.listening
    // the trial ends only by its deadline or by a qualifying response that ends it
    ensures !Finished(s) && Finished(r) ==>
      || (e == Elapsed(Deadline) && s.spec.trialDuration.Some?)
      || (e.KeyDown? && s.spec.responseEndsTrial && Qualifies(s.spec.choices, e.key))
  {
    match e
    case Elapsed(kind) => FireKeepsInv(s, kind); Fire(s, kind)
    case KeyDown(key, time) => PressKeepsInv(s, key, time); Press(s, key, time)
  }

  lemma FinishKeepsInv(s: TrialState)
    requires s.output == [] && (s.response.Some? ==> Qualifies(s.spec.choices, s.response.value.key))
    ensures Inv(Finish(s))
  {
  }

  lemma FireKeepsInv(s: TrialState, kind: TimerKind)
    requires Inv(s)
    ensures Inv(Fire(s, kind))
  {
    if Scheduled(s.pending, kind) && kind == Deadline {
      FinishKeepsInv(s.(pending := RemoveKind(s.pending, kind)));
    }
  }

  lemma PressKeepsInv(s: TrialState, key: Key, time: int)
    requires Inv(s)
    ensures Inv(Press(s, key, time))
  {
    if s.listening && Qualifies(s.spec.choices, key) && s.spec.responseEndsTrial {
      FinishKeepsInv(s.(listening := false, response := Some(Response(key, time))));
    }
  }

  /** The state after a sequence of events. */
  function Run(s: TrialState, events: seq<Event>): (r: TrialState)
    requires Inv(s)
    ensures Inv(r) && r.spec == s.spec
    ensures s.output <= r.output
    ensures Finished(s) ==> r == s
    ensures s.response.Some? ==> r.response == s.response
    ensures r.listening ==> s.listening
    decreases |events|
  {
    if events == [] then s else Run(Step(s, events[0]), events[1..])
  }

  /** The first key among the choices that the events press, with its time. */
  function FirstQualifying(choices: Choices, events: seq<Event>): (p: Option<Response>)
    ensures p.Some? ==> Qualifies(choices, p.value.key) && KeyDown(p.value.key, p.value.rt) in events
  {
    if events == [] then None
    else match events[0]
      case KeyDown(key, time) =>
        if Qualifies(choices, key) then Some(Response(key, time))
        else FirstQualifying(choices, events[1..])
      case Elapsed(_) => FirstQualifying(choices, events[1..])
  }

  /** `FirstQualifying` finds nothing exactly when no allowed key is pressed, and otherwise
      the allowed key pressed before every other allowed key. */
  lemma {:induction false} FirstQualifyingIsFirst(choices: Choices, events: seq<Event>)
    ensures FirstQualifying(choices, events).None? <==>
      forall i :: 0 <= i < |events| && events[i].KeyDown? ==> !Qualifies(choices, events[i].key)
    ensures var p := FirstQualifying(choices, events);
      p.Some? ==> exists i :: 0 <= i < |events| && events[i] == KeyDown(p.value.key, p.value.rt) &&
                             forall j :: 0 <= j < i && events[j].KeyDown? ==> !Qualifies(choices, events[j].key)
    decreases |events|
  {
    if events != [] {
      FirstQualifyingIsFirst(choices, events[1..]);
      var p := FirstQualifying(choices, events);
      if events[0].KeyDown? && Qualifies(choices, events[0].key) {
        assert events[0] == KeyDown(p.value.key, p.value.rt);
      } else {
        assert p == FirstQualifying(choices, events[1..]);
        forall i | 0 < i < |events| ensures events[i] == events[1..][i - 1] { }
        if p.Some? {
          var k :| 0 <= k < |events[1..]| && events[1..][k] == KeyDown(p.value.key, p.value.rt)
            && forall j :: 0 <= j < k && events[1..][j].KeyDown? ==> !Qualifies(choices, events[1..][j].key);
          assert events[k + 1] == KeyDown(p.value.key, p.value.rt);
          assert forall j :: 0 <= j < k + 1 && events[j].KeyDown? ==> !Qualifies(choices, events[j].key) by {
            forall j | 0 < j < k + 1 ensures events[j] == events[1..][j - 1] { }
          }
        }
      }
    }
  }
}

/**
 * The timers `plugin.trial` registers with `jsPsych.pluginAPI.setTimeout`, as values:
 * which callback, and when it is due, in milliseconds after the trial started.
 */
module Timers {
  import opened Wrappers
  import opened Parameters

  /** The three callbacks: swap in the first stimulus, swap in the second, end the trial. */
  datatype TimerKind = ShowFirst | ShowSecond | Deadline

  datatype Timer = Timer(kind: TimerKind, due: int)

  /**
   * The timers a trial registers, in registration order. Each is registered only under its
   * own condition, and a null duration added to another counts as 0.
   */
  function Schedule(spec: TrialSpec): (timers: seq<Timer>)
    ensures forall d :: Timer(ShowFirst, d) in timers <==> spec.fixationDuration == Some(d)
    ensures forall d :: Timer(ShowSecond, d) in timers <==>
      !IsGo(spec) && spec.isi.Some? && d == spec.isi.value + JsNumber(spec.fixationDuration)
    ensures forall d :: Timer(Deadline, d) in timers <==>
      spec.trialDuration.Some? && d == spec.trialDuration.value + JsNumber(spec.fixationDuration)
    ensures forall i, j :: 0 <= i < j < |timers| ==> timers[i].kind != timers[j].kind
  {
    (if spec.fixationDuration.Some? then [Timer(ShowFirst, spec.fixationDuration.value)] else [])
    + (if spec.stimulus1 != spec.stimulus2 && spec.isi.Some?
       then [Timer(ShowSecond, spec.isi.value + JsNumber(spec.fixationDuration))] else [])
    + (if spec.trialDuration.Some?
       then [Timer(Deadline, spec.trialDuration.value + JsNumber(spec.fixationDuration))] else [])
  }

  /** Whether a timer of `kind` is still waiting to fire. */
  predicate Scheduled(pending: seq<Timer>, kind: TimerKind)
  {
    exists t :: t in pending && t.kind == kind
  }

  /** The pending timers once the timer of `kind` has fired (a timeout fires once). */
  function RemoveKind(pending: seq<Timer>, kind: TimerKind): (rest: seq<Timer>)
    ensures forall t :: t in rest <==> t in pending && t.kind != kind
    ensures |rest| <= |pending|
  {
    if pending == [] then []
    else if pending[0].kind == kind then RemoveKind(pending[1..], kind)
    else [pending[0]] + RemoveKind(pending[1..], kind)
  }
}

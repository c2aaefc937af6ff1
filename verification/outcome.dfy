/** The response the listener reports and the `trial_data` record `end_trial` hands on. */
module Outcome {
  import opened Wrappers
  import opened Parameters
  import opened Timers

  /** What the keyboard listener reports: the key and its time since the trial started. */
  datatype Response = Response(key: Key, rt: int)

  /** `trial_data`, field by field. `rt` and `onsetOfSecondStimulus` are sums with nulls in
      them, so they are always numbers; the other nullable fields echo a null. */
  datatype TrialData = TrialData(
    rawRt: Option<int>,
    rt: int,
    firstStimulus: string,
    secondStimulus: string,
    onsetOfFirstStimulus: Option<int>,
    onsetOfSecondStimulus: int,
    keyPress: Option<Key>)

  /** The record built from the parameters and the recorded response (null when none). */
  function Record(spec: TrialSpec, response: Option<Response>): (d: TrialData)
    // the raw time is recovered from the corrected time and the first onset
    ensures JsNumber(d.rawRt) == d.rt + JsNumber(d.onsetOfFirstStimulus)
    ensures d.onsetOfFirstStimulus == spec.fixationDuration
    ensures response.Some? ==> d.rt == response.value.rt - JsNumber(spec.fixationDuration)
    ensures d.rawRt.Some? <==> response.Some?
    ensures d.keyPress.Some? <==> response.Some?
    ensures response.Some? ==> d.rawRt == Some(response.value.rt) && d.keyPress == Some(response.value.key)
    // with no response the corrected time is a number, minus the fixation duration
    ensures response.None? ==> d.rt == -JsNumber(spec.fixationDuration)
    // a response during the fixation gives a negative corrected time, kept as it is
    ensures response.Some? && spec.fixationDuration.Some? ==>
      (d.rt < 0 <==> response.value.rt < spec.fixationDuration.value)
    // the second onset is computed on go trials too
    ensures d.onsetOfSecondStimulus == JsNumber(spec.isi) + JsNumber(d.onsetOfFirstStimulus)
    ensures d.firstStimulus == spec.stimulus1 && d.secondStimulus == spec.stimulus2
  {
    var rawRt := match response case Some(r) => Some(r.rt) case None => None;
    TrialData(
      rawRt,
      JsNumber(rawRt) - JsNumber(spec.fixationDuration),
      spec.stimulus1,
      spec.stimulus2,
      spec.fixationDuration,
      JsNumber(spec.isi) + JsNumber(spec.fixationDuration),
      match response case Some(r) => Some(r.key) case None => None)
  }

  /** The onsets in the record are the instants the display swaps are due, when they are
      scheduled. */
  lemma OnsetsAreSwapTimes(spec: TrialSpec, response: Option<Response>, t: Timer)
    requires t in Schedule(spec)
    ensures t.kind == ShowFirst ==> Record(spec, response).onsetOfFirstStimulus == Some(t.due)
    ensures t.kind == ShowSecond ==> Record(spec, response).onsetOfSecondStimulus == t.due
  {
  }
}

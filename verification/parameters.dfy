/**
 * The parameters of one stop-signal trial (`plugin.info` and the `trial` object that
 * `plugin.trial` receives), with the defaults the plugin declares.
 */
module Parameters {
  import opened Wrappers

  /** A key name as jsPsych reports it, e.g. "leftarrow". */
  type Key = string

  /** `choices`: every key (`jsPsych.ALL_KEYS`), no key (`jsPsych.NO_KEYS`) or a list of keys. */
  datatype Choices = AllKeys | NoKeys | Keys(keys: seq<Key>)

  /** Whether the keyboard listener armed with `choices` reports `key`. */
  predicate Qualifies(choices: Choices, key: Key)
  {
    match choices
    case AllKeys => true
    case NoKeys => false
    case Keys(keys) => key in keys
  }

  /** The parameters after jsPsych has filled in the defaults. Durations are in milliseconds. */
  datatype TrialSpec = TrialSpec(
    fixation: string,
    fixationDuration: Option<int>,
    stimulus1: string,
    stimulus2: string,
    choices: Choices,
    prompt: Option<string>,
    isi: Option<int>,
    trialDuration: Option<int>,
    responseEndsTrial: bool)

  /** A go trial shows the same image twice; a stop trial swaps to a different one. */
  predicate IsGo(spec: TrialSpec)
  {
    spec.stimulus1 == spec.stimulus2
  }

  /**
   * The parameters as a timeline supplies them. `choices` and `response_ends_trial` may be
   * omitted (None); the nullable parameters default to null, so omitting one and passing
   * null are the same None.
   */
  datatype TrialParams = TrialParams(
    fixation: string,
    fixationDuration: Option<int>,
    stimulus1: string,
    stimulus2: string,
    choices: Option<Choices>,
    prompt: Option<string>,
    isi: Option<int>,
    trialDuration: Option<int>,
    responseEndsTrial: Option<bool>)

  /** Fills in the defaults of `plugin.info.parameters`. */
  function WithDefaults(p: TrialParams): (spec: TrialSpec)
    ensures spec.choices == (if p.choices.Some? then p.choices.value else AllKeys)
    ensures spec.responseEndsTrial == (p.responseEndsTrial != Some(false))
    ensures spec.fixationDuration == p.fixationDuration && spec.isi == p.isi
    ensures spec.trialDuration == p.trialDuration && spec.prompt == p.prompt
    ensures spec.fixation == p.fixation && spec.stimulus1 == p.stimulus1 && spec.stimulus2 == p.stimulus2
  {
    TrialSpec(
      p.fixation, p.fixationDuration, p.stimulus1, p.stimulus2,
      match p.choices case Some(c) => c case None => AllKeys,
      p.prompt, p.isi, p.trialDuration,
      match p.responseEndsTrial case Some(b) => b case None => true)
  }

  /** A trial given only its three images runs with every parameter at its default. */
  lemma OmittedParametersTakeDefaults(fixation: string, stimulus1: string, stimulus2: string)
    ensures WithDefaults(TrialParams(fixation, None, stimulus1, stimulus2, None, None, None, None, None))
         == TrialSpec(fixation, None, stimulus1, stimulus2, AllKeys, None, None, None, true)
  {
  }
}

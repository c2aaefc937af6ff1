/**
 * The three pieces of HTML the trial swaps into its display element, and what the
 * element shows in each phase of the trial.
 */
module Markup {
  import opened Wrappers
  import opened Parameters

  const StimulusId: string := "jspsych-image-keyboard-response-stimulus"

  /** The image tag used for both stimuli. */
  function ImageTag(src: string): (html: string)
  {
    "<img src=\"" + src + "\" id=\"" + StimulusId + "\"></img>"
  }

  /** The fixation's tag, which has no space between the `src` and `id` attributes. */
  function FixationTag(src: string): (html: string)
  {
    "<img src=\"" + src + "\"id=\"" + StimulusId + "\"></img>"
  }

  /** The text a prompt contributes: itself, or nothing when the prompt is null. */
  function PromptText(prompt: Option<string>): (text: string)
  {
    match prompt
    case None => ""
    case Some(p) => p
  }

  function FixationMarkup(spec: TrialSpec): (html: string)
  {
    FixationTag(spec.fixation)
  }

  function FirstMarkup(spec: TrialSpec): (html: string)
    ensures |html| == |ImageTag(spec.stimulus1)| + |PromptText(spec.prompt)|
    ensures html[..|ImageTag(spec.stimulus1)|] == ImageTag(spec.stimulus1)
    ensures html[|ImageTag(spec.stimulus1)|..] == PromptText(spec.prompt)
  {
    var tag := ImageTag(spec.stimulus1);
    if spec.prompt.Some? then tag + spec.prompt.value else tag
  }

  function SecondMarkup(spec: TrialSpec): (html: string)
  {
    ImageTag(spec.stimulus2)
  }

  /** Which markup the display element holds. */
  datatype Screen = Blank | Fixation | FirstStimulus | SecondStimulus

  /** The display element's `innerHTML` for each screen. */
  function Html(spec: TrialSpec, screen: Screen): (html: string)
    ensures html == "" <==> screen == Blank
  {
    match screen
    case Blank => ""
    case Fixation => FixationMarkup(spec)
    case FirstStimulus => FirstMarkup(spec)
    case SecondStimulus => SecondMarkup(spec)
  }

  /**
   * The prompt goes after the first stimulus and nowhere else: changing it leaves the
   * fixation and second-stimulus markup alone, and a prompt `p` extends the first
   * stimulus's markup by exactly `p`.
   */
  lemma PromptOnlyAfterFirstStimulus(spec: TrialSpec, p: string)
    ensures FixationMarkup(spec.(prompt := Some(p))) == FixationMarkup(spec.(prompt := None))
    ensures SecondMarkup(spec.(prompt := Some(p))) == SecondMarkup(spec.(prompt := None))
    ensures FirstMarkup(spec.(prompt := Some(p))) == FirstMarkup(spec.(prompt := None)) + p
  {
  }

  /** Different images give different tags: the path sits right after `<img src="`. */
  lemma {:induction false} ImageTagsDistinguishImages(a: string, b: string)
    requires a != b
    ensures ImageTag(a) != ImageTag(b)
  {
    assert ImageTag(a)[10..10 + |a|] == a;
    assert ImageTag(b)[10..10 + |b|] == b;
    assert |ImageTag(a)| == |a| + |ImageTag("")|;
    assert |ImageTag(b)| == |b| + |ImageTag("")|;
  }

  /**
   * Without a prompt, a stop trial's swap changes what is shown, while a go trial's first
   * and second markup are the same string.
   */
  lemma StopSignalSwapIsVisible(spec: TrialSpec)
    requires spec.prompt.None?
    ensures FirstMarkup(spec) == SecondMarkup(spec) <==> IsGo(spec)
  {
    if !IsGo(spec) {
      ImageTagsDistinguishImages(spec.stimulus1, spec.stimulus2);
    }
  }
}

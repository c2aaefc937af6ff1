# Stop-signal trial engine

A Dafny model of the custom jsPsych plugin that runs one trial of the STOP-IT
stop-signal task (`jsPsych_version/js/custom-stop-signal-plugin.js`). A trial shows a
fixation image, swaps in a first stimulus after `fixation_duration`, on a stop trial
(`stimulus1 != stimulus2`) swaps in a second stimulus after `ISI + fixation_duration`, and
ends at `trial_duration + fixation_duration` or at the first allowed key when
`response_ends_trial` is set. When it ends it cancels its timers and its keyboard listener,
builds its `trial_data` record, blanks the display and hands the record to jsPsych.

The model has these modules:

- `Wrappers`: `Option` for the plugin's nullable values, and `JsNumber`, JavaScript's
  treatment of `null` as 0 in `+` and `-`.
- `Parameters`: the trial parameters, the allowed keys (`choices`) and the defaults of
  `plugin.info`.
- `Markup`: the fixation, first-stimulus (plus prompt) and second-stimulus HTML, and the
  display element's content for each screen.
- `Timers`: the timers the trial registers, as values (`Schedule`).
- `Outcome`: the listener's response and the `trial_data` record (`Record`).
- `TrialMachine`: the trial as a state machine over values. A state holds the display,
  the pending timers, whether the listener is armed, the response and the records handed
  on. `Step` handles one event (a timer firing, a key press), and `Run` a sequence of
  events in any order.
- `TrialProperties`: what holds over every sequence of events.
- `Plugin`: class `Trial`, whose fields are the closure's variables. Its constructor `Start`
  is `plugin.trial`; `FireTimer` and `KeyPress` are the callbacks the event loop runs;
  `AfterResponse` and `EndTrial` are the closure's two functions, in their order of steps.
  Each is proved to make the `TrialMachine` step of its event.
- `Scenarios`: trials with the experiment's own timing (250 ms fixation, 1250 ms maximum
  reaction time, 200 ms stop-signal delay), driven through `Trial`.

Four behaviours of the code that are easy to miss:

- With no response, `rt` is `null - fixation_duration`. JavaScript evaluates that to
  `-fixation_duration` (0 when the fixation duration is null as well), not to null.
- With a null `fixation_duration`, no timer swaps in the first stimulus. The display keeps
  the fixation markup until a stop-signal swap or the end of the trial; the stimulus is not
  shown at time 0.
- With a null `fixation_duration`, `onset_of_first_stimulus` stays null rather than 0, and
  `rt` equals the raw response time.
- No rule orders a response and the deadline that fall in the same instant. The event
  loop may run either one first, and the model admits both orders.

## Model

| member | source | states |
|---|---|---|
| `Wrappers.JsNumber` | jsPsych_version/js/custom-stop-signal-plugin.js:120-124 | a null operand counts as 0 in the record's and the timers' sums; a number is itself |
| `Parameters.WithDefaults` | jsPsych_version/js/custom-stop-signal-plugin.js:23-83 | an omitted `choices` becomes all keys, an omitted `response_ends_trial` becomes true, every other parameter passes through unchanged |
| `Parameters.OmittedParametersTakeDefaults` | jsPsych_version/js/custom-stop-signal-plugin.js:33-81 | a trial given only its images has null fixation duration, ISI, trial duration and prompt, all keys allowed, and responses ending the trial |
| `Markup.FirstMarkup` | jsPsych_version/js/custom-stop-signal-plugin.js:89-95 | the first-stimulus markup is the stimulus's image tag followed by exactly the prompt's text (nothing when the prompt is null) |
| `Markup.Html` | jsPsych_version/js/custom-stop-signal-plugin.js:88-98 | the display is empty exactly on the blank screen and non-empty on the fixation and stimulus screens |
| `Markup.PromptOnlyAfterFirstStimulus` | jsPsych_version/js/custom-stop-signal-plugin.js:92-95 | changing the prompt leaves the fixation and second-stimulus markup unchanged, and a prompt `p` extends the first-stimulus markup by exactly `p` |
| `Markup.ImageTagsDistinguishImages` | jsPsych_version/js/custom-stop-signal-plugin.js:89-90 | different image paths give different stimulus tags |
| `Markup.StopSignalSwapIsVisible` | jsPsych_version/js/custom-stop-signal-plugin.js:89-95 | without a prompt, the first and second stimulus markup are the same string exactly on go trials, so a stop trial's swap changes the display |
| `Timers.Schedule` | jsPsych_version/js/custom-stop-signal-plugin.js:163-184 | a first-stimulus swap is scheduled iff the fixation duration is non-null, due at it; a second-stimulus swap iff the stimuli differ and the ISI is non-null, due at ISI + fixation; a deadline iff the trial duration is non-null, due at trial duration + fixation; no kind twice |
| `Timers.RemoveKind` | jsPsych_version/js/custom-stop-signal-plugin.js:164-166 | a fired timer leaves the pending set, and every other pending timer stays |
| `Outcome.Record` | jsPsych_version/js/custom-stop-signal-plugin.js:117-126 | raw rt and key are null iff there was no response, and otherwise are the response's; the first onset is the fixation duration, null included; rt = response time - fixation (null as 0), and raw rt = rt + first onset; no response gives rt = -fixation; rt is negative iff the response came during a fixation; onset2 - onset1 = ISI (null as 0), on go trials too; the stimuli are echoed |
| `Outcome.OnsetsAreSwapTimes` | jsPsych_version/js/custom-stop-signal-plugin.js:123-124 | the record's first and second onsets equal the due times of the scheduled swap timers |
| `TrialMachine.Init` | jsPsych_version/js/custom-stop-signal-plugin.js:97-161 | the trial starts unfinished, with no response, in a state satisfying the invariant, with the listener armed iff choices is not "no keys" |
| `TrialMachine.Step` | jsPsych_version/js/custom-stop-signal-plugin.js:107-184 | every event keeps the invariant; a record once handed on stays, and none follows it; after the end nothing changes; a recorded response is never overwritten; the listener is never re-armed; an event that ends a live trial is either a deadline firing in a trial with a trial duration, or an allowed key while responses end the trial |
| `TrialMachine.Run` | jsPsych_version/js/custom-stop-signal-plugin.js:107-184 | over any sequence of events: the invariant holds, records once handed on stay and none follows the first, nothing changes after the end, a recorded response is kept, and the listener is never re-armed (what can end a trial is `TrialProperties.EndedByDeadlineOrResponse`) |
| `TrialMachine.FirstQualifying` | jsPsych_version/js/custom-stop-signal-plugin.js:153-160 | the first key the listener would report is an allowed key that was pressed, with its time |
| `TrialMachine.FirstQualifyingIsFirst` | jsPsych_version/js/custom-stop-signal-plugin.js:153-160 | the search finds nothing exactly when no allowed key is pressed; otherwise it finds a pressed allowed key with no allowed key pressed before it |
| `TrialProperties.AtMostOneRecord` | jsPsych_version/js/custom-stop-signal-plugin.js:107-133 | at most one record is handed on, and after it no further event changes the trial |
| `TrialProperties.GoTrialNeverShowsSecond` | jsPsych_version/js/custom-stop-signal-plugin.js:169-176 | a go trial schedules no second-stimulus swap and never shows the second stimulus |
| `TrialProperties.NoFixationDurationNeverShowsFirst` | jsPsych_version/js/custom-stop-signal-plugin.js:163-167 | with a null fixation duration the first-stimulus markup is never shown |
| `TrialProperties.NoKeysNoResponse` | jsPsych_version/js/custom-stop-signal-plugin.js:152-161 | with no keys allowed no listener is armed, no response is recorded, and the record's key and raw rt are null |
| `TrialProperties.RecordedIsFirstQualifying` | jsPsych_version/js/custom-stop-signal-plugin.js:142-145 | a recorded response is the first allowed key pressed, and only a trial with an armed listener records one |
| `TrialProperties.FirstResponseIsRecorded` | jsPsych_version/js/custom-stop-signal-plugin.js:118-126 | a finished trial with a response hands on the record of the first allowed key pressed |
| `TrialProperties.EndedByDeadlineOrResponse` | jsPsych_version/js/custom-stop-signal-plugin.js:147-184 | a trial that ends was ended by its deadline (and had one) or by an allowed key while responses end the trial |
| `TrialProperties.NeverEndsWithoutDeadline` | jsPsych_version/js/custom-stop-signal-plugin.js:179-184 | without a trial duration, a trial whose responses cannot end it never ends |
| `TrialProperties.DeadlineEndsTrial` | jsPsych_version/js/custom-stop-signal-plugin.js:180-184 | a pending deadline ends the trial: the response so far is recorded, timers and listener are cancelled, and the display is empty |
| `TrialProperties.ResponseEndsTrialOrIsKept` | jsPsych_version/js/custom-stop-signal-plugin.js:136-150 | an allowed key on an armed listener is recorded. If responses end the trial, it ends at once with that record. Otherwise timers and display are untouched, and any later end carries that response |
| `TrialProperties.SwapTimerShowsItsMarkup` | jsPsych_version/js/custom-stop-signal-plugin.js:164-174 | a pending swap timer puts the first-stimulus markup (with prompt) or the second-stimulus markup on the display, leaves the pending set alone but for itself, and keeps listener, response and records |
| `TrialProperties.StepKeepsLive` | jsPsych_version/js/custom-stop-signal-plugin.js:153-184 | no event removes the deadline of a live trial, and none disarms the listener without recording a response or ending the trial |
| `TrialProperties.RunKeepsLive` | jsPsych_version/js/custom-stop-signal-plugin.js:153-184 | over any sequence of events a live trial stays live: deadline pending while unfinished, listener armed until a response is recorded |
| `TrialProperties.DeadlineEndsEveryTimedTrial` | jsPsych_version/js/custom-stop-signal-plugin.js:179-184 | after any events, an unfinished trial with a trial duration still has its deadline pending, due at trial duration + fixation, and firing it hands on the record of the response so far |
| `TrialProperties.LiveTrialRecordsNextKey` | jsPsych_version/js/custom-stop-signal-plugin.js:142-160 | after any events, an unfinished trial without a response has its listener armed and records the next allowed key with its time; if responses end the trial, that key hands on its record at once |
| `TrialProperties.IgnoredKeyChangesNothing` | jsPsych_version/js/custom-stop-signal-plugin.js:153-161 | a key outside the choices, or a key once the listener is disarmed, changes nothing |
| `Plugin.Trial.Start` | jsPsych_version/js/custom-stop-signal-plugin.js:85-184 | the new trial shows the fixation, has no response, has the listener armed iff choices is not "no keys", and has exactly the scheduled timers pending |
| `Plugin.Trial.Display` | jsPsych_version/js/custom-stop-signal-plugin.js:129 | the display is empty exactly when the trial has handed on its record |
| `Plugin.Trial.EndTrial` | jsPsych_version/js/custom-stop-signal-plugin.js:107-133 | cancels every timer and the listener, blanks the display and hands on exactly the record of the response so far |
| `Plugin.Trial.AfterResponse` | jsPsych_version/js/custom-stop-signal-plugin.js:136-150 | records the response only if none is recorded; ends the trial iff responses end it |
| `Plugin.Trial.KeyPress` | jsPsych_version/js/custom-stop-signal-plugin.js:152-161 | makes the machine's key step; keeps a recorded response; changes nothing after the end |
| `Plugin.Trial.FireTimer` | jsPsych_version/js/custom-stop-signal-plugin.js:163-184 | makes the machine's timer step; changes nothing after the end, and a second-stimulus timer changes nothing on a go trial |
| `Scenarios.RespondAt900` | jsPsych_version/js/custom-stop-signal-plugin.js:118-126 | 250 ms fixation, 1250 ms trial duration, left arrow at 900 ms: deadline 1500, first stimulus shown, raw rt 900, rt 650, key "leftarrow" |
| `Scenarios.NoResponse` | jsPsych_version/js/custom-stop-signal-plugin.js:119-125 | the same trial with no key: raw rt and key null, rt -250, display empty afterwards |
| `Scenarios.StopSignalAt450` | jsPsych_version/js/custom-stop-signal-plugin.js:170-176 | with ISI 200 and fixation 250 the stop stimulus is due at 450, and the display goes from the go image to the stop image |
| `Scenarios.RespondDuringFixation` | jsPsych_version/js/custom-stop-signal-plugin.js:119-120 | a key at 100 ms during a 250 ms fixation gives rt -150 |
| `Scenarios.SecondKeyIgnored` | jsPsych_version/js/custom-stop-signal-plugin.js:142-149 | with responses not ending the trial, an unlisted key and a second arrow are ignored, the trial runs to its deadline, and the record holds the first arrow |

## Left out

- Preloading the images (`registerPreload`, line 21) and the rendering of HTML: the display is a choice among four markups, and only the markup strings are modelled.
- The `' responded'` CSS class appended to the stimulus on a response (line 140): presentation only.
- Wall-clock timing (`rt_method: 'date'`) and the event loop's order: a key's time is a parameter of `KeyPress`, and events may arrive in any order. Every property is proved for every order, including orders the browser would not produce. Nor does the model clamp negative delays to 0, as `setTimeout` does.
- Held keys (`allow_held_key: false`) and jsPsych's key-name conversion: the listener's filter is `Parameters.Qualifies` on key names.
- JavaScript's loose `!=` between `choices` and `jsPsych.NO_KEYS`, under which an array holding only `'none'` also counts as "no keys": `choices` is a datatype here.
- The image parameters `fixation`, `stimulus1` and `stimulus2` (default `undefined`) are required fields of `TrialSpec`; jsPsych's complaint about a missing one is not modelled.
- `jsPsych.finishTrial` and what the sequencer does with the record: the record is appended to the trial's `output`.
- `jsPsych_version/configuration/experiment_variables.js` and `jsPsych_version/configuration/text_variables.js`: constants and texts only, with no logic.

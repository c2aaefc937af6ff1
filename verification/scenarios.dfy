/**
 * Trials with the experiment's own timing (a 250 ms fixation, a 1250 ms maximum reaction
 * time, a 200 ms stop-signal delay), driven through the `Trial` object.
 */
module Scenarios {
  import opened Wrappers
  import opened Parameters
  import opened Markup
  import opened Timers
  import opened Outcome
  import opened Plugin

  const Fix := "images/fix.png"
  const GoLeft := "images/go_left.png"
  const StopLeft := "images/stop_left.png"

  function Arrows(): Choices
  {
    Keys(["leftarrow", "rightarrow"])
  }

  function GoSpec(endsOnResponse: bool): TrialSpec
  {
    TrialSpec(Fix, Some(250), GoLeft, GoLeft, Arrows(), None, None, Some(1250), endsOnResponse)
  }

  /** A left arrow at 900 ms ends the trial: corrected time 650 ms; the deadline was 1500 ms. */
  method RespondAt900() returns (deadline: int, shown: string, data: TrialData)
    ensures deadline == 1500 && shown == ImageTag(GoLeft)
    ensures data == TrialData(Some(900), 650, GoLeft, GoLeft, Some(250), 250, Some("leftarrow"))
  {
    var trial := new Trial.Start(GoSpec(true));
    deadline := trial.pending[1].due;
    trial.FireTimer(ShowFirst);
    shown := trial.Display();
    trial.KeyPress("leftarrow", 900);
    data := trial.output[0];
  }

  /** With no key the deadline ends the trial; the corrected time is -250, not null. */
  method NoResponse() returns (data: TrialData, shown: string)
    ensures data == TrialData(None, -250, GoLeft, GoLeft, Some(250), 250, None)
    ensures shown == ""
  {
    var trial := new Trial.Start(GoSpec(true));
    trial.FireTimer(ShowFirst);
    trial.FireTimer(Deadline);
    data := trial.output[0];
    shown := trial.Display();
  }

  /** On a stop trial the stop signal replaces the go stimulus at 450 ms. */
  method StopSignalAt450() returns (swapAt: int, before: string, after: string)
    ensures swapAt == 450
    ensures before == ImageTag(GoLeft) && after == ImageTag(StopLeft)
  {
    var spec := TrialSpec(Fix, Some(250), GoLeft, StopLeft, Arrows(), None, Some(200), Some(1250), true);
    var trial := new Trial.Start(spec);
    swapAt := trial.pending[1].due;
    trial.FireTimer(ShowFirst);
    before := trial.Display();
    trial.FireTimer(ShowSecond);
    after := trial.Display();
  }

  /** A key pressed during the fixation gives a negative corrected time. */
  method RespondDuringFixation() returns (data: TrialData)
    ensures data.rawRt == Some(100) && data.rt == -150
  {
    var trial := new Trial.Start(GoSpec(true));
    trial.KeyPress("rightarrow", 100);
    data := trial.output[0];
  }

  /** When responses do not end the trial, a second key is ignored, a key outside the choices
      too, and the deadline ends the trial with the first response. */
  method SecondKeyIgnored() returns (endedEarly: bool, data: TrialData)
    ensures !endedEarly
    ensures data == TrialData(Some(500), 250, GoLeft, GoLeft, Some(250), 250, Some("leftarrow"))
  {
    var trial := new Trial.Start(GoSpec(false));
    trial.FireTimer(ShowFirst);
    assert trial.pending == [Timer(Deadline, 1500)] && trial.listening && trial.response.None?;
    trial.KeyPress("space", 450);
    assert trial.pending == [Timer(Deadline, 1500)] && trial.listening && trial.response.None?;
    trial.KeyPress("leftarrow", 500);
    assert trial.pending == [Timer(Deadline, 1500)] && !trial.listening;
    assert trial.response == Some(Response("leftarrow", 500)) && trial.output == [];
    trial.KeyPress("rightarrow", 600);
    endedEarly := trial.output != [];
    trial.FireTimer(Deadline);
    data := trial.output[0];
  }
}

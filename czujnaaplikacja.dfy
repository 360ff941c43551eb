/**
  The sensor screen of the czujnaaplikacja variant: four pieces of screen
  state, the callbacks with which the polling loop updates them, the view the
  screen's `when` expression picks, and the command handlers, which report
  only through a snackbar and change no screen state.
*/
module CzujnaAplikacja {
  import opened Wrappers
  import Decimal
  import Fetch
  import Api

  /** One reading; this variant reads `pumpDuration` and treats `autoWatering` as nullable. */
  datatype MoistureData = MoistureData(
    temperature: real,
    airHumidity: real,
    soilMoisture: int,
    lightLevel: int,
    desiredMoisture: int,
    autoWatering: Option<bool>,
    fullDate: string,
    pumpDuration: int)

  datatype ScreenState = ScreenState(
    sensorData: Option<MoistureData>,
    isLoading: bool,
    errorMessage: Option<string>,
    autoWateringEnabled: bool)

  /** The state the screen is created with. */
  const Initial := ScreenState(None, false, None, false)

  // ----- Polling -----

  /** What the polling loop's callback for one event does to the screen state. */
  function Apply(s: ScreenState, e: Fetch.Event<MoistureData>): ScreenState {
    match e
    case OnLoading => s.(isLoading := true)
    case OnSuccess(d) =>
      s.(sensorData := Some(d),
         autoWateringEnabled := if d.autoWatering.Some? then d.autoWatering.value else s.autoWateringEnabled,
         errorMessage := None)
    case OnError(m) => s.(errorMessage := Some(m), sensorData := None)
    case OnComplete => s.(isLoading := false)
  }

  /** The state after the callbacks of a trace have run in order. */
  function Run(s: ScreenState, trace: seq<Fetch.Event<MoistureData>>): ScreenState
    decreases |trace|
  {
    if trace == [] then s else Run(Apply(s, trace[0]), trace[1..])
  }

  /** One iteration of the polling loop: `fetchData` with all four callbacks. */
  function PollStep(s: ScreenState, o: Fetch.HttpOutcome<MoistureData>): ScreenState {
    Run(s, Fetch.FetchData(o, Fetch.AllCallbacks))
  }

  lemma PollStepUnfold(s: ScreenState, o: Fetch.HttpOutcome<MoistureData>)
    ensures PollStep(s, o) ==
      Apply(Apply(Apply(s, Fetch.OnLoading), Fetch.ReportEvent(Fetch.Classify(o))), Fetch.OnComplete)
  {
    Fetch.FetchDataAllCallbacks(o);
    var loading: Fetch.Event<MoistureData> := Fetch.OnLoading;
    var complete: Fetch.Event<MoistureData> := Fetch.OnComplete;
    var report := Fetch.ReportEvent(Fetch.Classify(o));
    var t := [loading, report, complete];
    assert t[1..] == [report, complete] && t[1..][1..] == [complete] && t[1..][1..][1..] == [];
    calc {
      Run(s, t);
      Run(Apply(s, loading), [report, complete]);
      Run(Apply(Apply(s, loading), report), [complete]);
      Run(Apply(Apply(Apply(s, loading), report), complete), []);
    }
  }

  /** The loading flag is always reset by the end of a poll. */
  lemma PollResetsLoading(s: ScreenState, o: Fetch.HttpOutcome<MoistureData>)
    ensures !PollStep(s, o).isLoading
  {
    PollStepUnfold(s, o);
  }

  /**
    A successful poll replaces the data and clears the error; it copies
    `autoWatering` only when the reading has that field.
  */
  lemma PollSucceeded(s: ScreenState, o: Fetch.HttpOutcome<MoistureData>, d: MoistureData)
    requires Fetch.Classify(o) == Fetch.Success(d)
    ensures PollStep(s, o).sensorData == Some(d)
    ensures PollStep(s, o).errorMessage == None
    ensures d.autoWatering.Some? ==> PollStep(s, o).autoWateringEnabled == d.autoWatering.value
    ensures d.autoWatering.None? ==> PollStep(s, o).autoWateringEnabled == s.autoWateringEnabled
  {
    PollStepUnfold(s, o);
  }

  /** A failed poll nulls the data, shows the error and leaves the switch as it was. */
  lemma PollFailed(s: ScreenState, o: Fetch.HttpOutcome<MoistureData>, e: Fetch.FetchError)
    requires Fetch.Classify(o) == Fetch.Failure(e)
    ensures PollStep(s, o).sensorData == None
    ensures PollStep(s, o).errorMessage == Some(Fetch.ErrorText(e))
    ensures PollStep(s, o).autoWateringEnabled == s.autoWateringEnabled
  {
    PollStepUnfold(s, o);
  }

  // ----- Rendering -----

  const NoDataText := "Brak danych z czujników"

  /** What the screen shows below the logo. */
  datatype View =
    | Spinner
    | SensorPanel(data: MoistureData, autoWateringEnabled: bool, pumpDuration: int)
    | ErrorNotice(message: string)
    | Placeholder(text: string)

  /** The branches of the screen's `when`, tried in order. */
  function Render(s: ScreenState): (v: View)
    ensures v.Spinner? <==> s.isLoading
    ensures v.SensorPanel? <==> !s.isLoading && s.sensorData.Some?
    ensures v.SensorPanel? ==>
      v == SensorPanel(s.sensorData.value, s.autoWateringEnabled, s.sensorData.value.pumpDuration)
    ensures v.ErrorNotice? <==> !s.isLoading && s.sensorData.None? && s.errorMessage.Some?
    ensures v.ErrorNotice? ==> v.message == s.errorMessage.value
    ensures v.Placeholder? ==> v.text == NoDataText
  {
    if s.isLoading then Spinner
    else if s.sensorData.Some? then
      SensorPanel(s.sensorData.value, s.autoWateringEnabled, s.sensorData.value.pumpDuration)
    else if s.errorMessage.Some? then ErrorNotice(s.errorMessage.value)
    else Placeholder(NoDataText)
  }

  /**
    After a completed poll the screen shows the fresh reading or that poll's
    error, never the spinner and never the placeholder.
  */
  lemma PollShowsOutcome(s: ScreenState, o: Fetch.HttpOutcome<MoistureData>)
    ensures Render(PollStep(s, o)).SensorPanel? <==> Fetch.Classify(o).Success?
    ensures Fetch.Classify(o).Success? ==> Render(PollStep(s, o)).data == Fetch.Classify(o).data
    ensures Fetch.Classify(o).Failure? ==>
      Render(PollStep(s, o)) == ErrorNotice(Fetch.ErrorText(Fetch.Classify(o).error))
  {
    PollStepUnfold(s, o);
  }

  // ----- Command feedback -----

  const FailureMark := "Błąd"

  /** The snackbar a command handler shows for the reply to its call. */
  function Feedback(success: string, reply: Fetch.CallOutcome): string {
    match reply
    case Answered(code) =>
      if Fetch.IsSuccessful(code) then success else "Błąd: " + Decimal.IntToString(code)
    case Threw(m) => Fetch.ConnectionErrorPrefix + Fetch.MessageText(m)
  }

  /** For a success text that does not begin like an error, the snackbar signals failure exactly when the call failed. */
  lemma FeedbackSignalsFailure(success: string, reply: Fetch.CallOutcome)
    requires !Fetch.StartsWith(success, FailureMark)
    ensures Fetch.StartsWith(Feedback(success, reply), FailureMark) <==> !reply.Succeeded()
  {
    match reply
    case Answered(code) =>
      if !Fetch.IsSuccessful(code) {
        assert "Błąd: " + Decimal.IntToString(code) == FailureMark + (": " + Decimal.IntToString(code));
        Fetch.ConcatStartsWith(FailureMark, ": " + Decimal.IntToString(code));
      }
    case Threw(m) =>
      assert Fetch.ConnectionErrorPrefix + Fetch.MessageText(m) == FailureMark + (" połączenia: " + Fetch.MessageText(m));
      Fetch.ConcatStartsWith(FailureMark, " połączenia: " + Fetch.MessageText(m));
  }

  function AutoWateringText(enabled: bool): string {
    "Automatyczne podlewanie " + (if enabled then "włączone" else "wyłączone")
  }

  const WaterNowText := "Podlewanie rozpoczęte"

  function MoistureSetText(level: int): string {
    "Poziom wilgotności ustawiony na " + Decimal.IntToString(level)
  }

  function PumpDurationText(duration: int): string {
    "Czas działania pompy ustawiony na " + Decimal.IntToString(duration) + " sekund"
  }

  // ----- The screen -----

  class MoistureControlScreen {
    var sensorData: Option<MoistureData>
    var isLoading: bool
    var errorMessage: Option<string>
    var autoWateringEnabled: bool

    function State(): ScreenState
      reads this
    {
      ScreenState(sensorData, isLoading, errorMessage, autoWateringEnabled)
    }

    constructor ()
      ensures State() == Initial
    {
      sensorData, isLoading, errorMessage, autoWateringEnabled := None, false, None, false;
    }

    method OnLoading()
      modifies this
      ensures State() == Apply(old(State()), Fetch.OnLoading)
    {
      isLoading := true;
    }

    method OnSuccess(data: MoistureData)
      modifies this
      ensures State() == Apply(old(State()), Fetch.OnSuccess(data))
    {
      sensorData := Some(data);
      if data.autoWatering.Some? {
        autoWateringEnabled := data.autoWatering.value;
      }
      errorMessage := None;
    }

    /** Also shows the error in a snackbar, returned as `snackbar`. */
    method OnError(error: string) returns (snackbar: string)
      modifies this
      ensures State() == Apply(old(State()), Fetch.OnError(error))
      ensures snackbar == error
    {
      errorMessage := Some(error);
      sensorData := None;
      snackbar := error;
    }

    method OnComplete()
      modifies this
      ensures State() == Apply(old(State()), Fetch.OnComplete)
    {
      isLoading := false;
    }

    /**
      One iteration of the polling loop: `fetchData` invoking the callbacks
      above. A snackbar is shown exactly when the poll failed, with the same
      text the screen then displays as its error.
    */
    method Poll(o: Fetch.HttpOutcome<MoistureData>) returns (snackbar: Option<string>)
      modifies this
      ensures State() == PollStep(old(State()), o)
      ensures !isLoading
      ensures snackbar.Some? <==> Fetch.Classify(o).Failure?
      ensures snackbar == errorMessage
    {
      PollStepUnfold(State(), o);
      OnLoading();
      match Fetch.Classify(o) {
        case Success(d) =>
          OnSuccess(d);
          snackbar := None;
        case Failure(e) =>
          var shown := OnError(Fetch.ErrorText(e));
          snackbar := Some(shown);
      }
      OnComplete();
    }

    /** The auto-watering switch: sends the request and reports the reply; no state changes. */
    method SetAutoWatering(enabled: bool, reply: Fetch.CallOutcome) returns (sent: Api.Request, snackbar: string)
      ensures sent == Api.SetAutoWatering(enabled)
      ensures Api.VerbOf(sent) == Api.Post && Api.PathOf(sent) == "setAutoWatering"
      ensures snackbar == Feedback(AutoWateringText(enabled), reply)
      ensures Fetch.StartsWith(snackbar, FailureMark) <==> !reply.Succeeded()
    {
      Fetch.DiffersAt(AutoWateringText(enabled), FailureMark, 0);
      FeedbackSignalsFailure(AutoWateringText(enabled), reply);
      sent := Api.SetAutoWatering(enabled);
      snackbar := Feedback(AutoWateringText(enabled), reply);
    }

    /**
      The water-now handler, which calls `waterPlant`; no state changes. The
      control panel receives it but no button of the panel calls it.
    */
    method WaterNow(reply: Fetch.CallOutcome) returns (sent: Api.Request, snackbar: string)
      ensures sent == Api.WaterPlant
      ensures Api.VerbOf(sent) == Api.Post && Api.PathOf(sent) == "waterPlant"
      ensures snackbar == Feedback(WaterNowText, reply)
      ensures Fetch.StartsWith(snackbar, FailureMark) <==> !reply.Succeeded()
    {
      Fetch.DiffersAt(WaterNowText, FailureMark, 0);
      FeedbackSignalsFailure(WaterNowText, reply);
      sent := Api.WaterPlant;
      snackbar := Feedback(WaterNowText, reply);
    }

    /**
      The set-moisture button, with the level the slider shows: the device's
      `desiredMoisture` until the slider is moved. No state changes.
    */
    method SetDesiredMoisture(level: int, reply: Fetch.CallOutcome) returns (sent: Api.Request, snackbar: string)
      ensures sent == Api.SetDesiredMoisture(level)
      ensures Api.VerbOf(sent) == Api.Post && Api.PathOf(sent) == "setMoisture"
      ensures snackbar == Feedback(MoistureSetText(level), reply)
      ensures Fetch.StartsWith(snackbar, FailureMark) <==> !reply.Succeeded()
    {
      Fetch.DiffersAt(MoistureSetText(level), FailureMark, 0);
      FeedbackSignalsFailure(MoistureSetText(level), reply);
      sent := Api.SetDesiredMoisture(level);
      snackbar := Feedback(MoistureSetText(level), reply);
    }

    /** The handler the pump-duration button calls with a duration; no state changes. */
    method SetPumpDuration(duration: int, reply: Fetch.CallOutcome) returns (sent: Api.Request, snackbar: string)
      ensures sent == Api.SetPumpDuration(duration)
      ensures Api.VerbOf(sent) == Api.Post && Api.PathOf(sent) == "/setPumpDuration"
      ensures snackbar == Feedback(PumpDurationText(duration), reply)
      ensures Fetch.StartsWith(snackbar, FailureMark) <==> !reply.Succeeded()
    {
      Fetch.DiffersAt(PumpDurationText(duration), FailureMark, 0);
      FeedbackSignalsFailure(PumpDurationText(duration), reply);
      sent := Api.SetPumpDuration(duration);
      snackbar := Feedback(PumpDurationText(duration), reply);
    }

    /**
      The pump-duration button: the typed text, read with `toIntOrNull` into
      `input`, is sent only when it is a number greater than zero; otherwise
      nothing is sent and nothing is shown.
    */
    method PumpDurationButton(input: Option<int>, reply: Fetch.CallOutcome)
      returns (sent: seq<Api.Request>, snackbar: Option<string>)
      ensures |sent| <= 1
      ensures sent != [] <==> input.Some? && input.value > 0
      ensures sent != [] ==> sent[0] == Api.SetPumpDuration(input.value) && sent[0].duration > 0
      ensures snackbar.Some? <==> sent != []
      ensures snackbar.Some? ==>
        (Fetch.StartsWith(snackbar.value, FailureMark) <==> !reply.Succeeded())
    {
      sent, snackbar := [], None;
      if input.Some? && input.value > 0 {
        var request, shown := SetPumpDuration(input.value, reply);
        sent, snackbar := [request], Some(shown);
      }
    }
  }
}

/**
  The sensor screen of the NameIsNotImportant variant: the same four pieces of
  screen state and the same polling callbacks, but command handlers that
  update the state: a successful auto-watering toggle sets the switch, and a
  failed command sets the error message.
*/
module NameIsNotImportant {
  import opened Wrappers
  import Decimal
  import Fetch
  import Api

  /** One reading, with the fields of model/MoistureData.kt. */
  datatype MoistureData = MoistureData(
    temperature: real,
    airHumidity: real,
    soilMoisture: int,
    lightLevel: int,
    desiredMoisture: int,
    autoWatering: bool,
    fullDate: string)

  datatype ScreenState = ScreenState(
    sensorData: Option<MoistureData>,
    isLoading: bool,
    errorMessage: Option<string>,
    autoWateringEnabled: bool)

  /** The state the screen is created with. */
  const Initial := ScreenState(None, false, None, false)

  // ----- Polling -----

  /**
    What the polling loop's callback for one event does to the screen state.
    `autoWatering` is not nullable here, so a reading always sets the switch.
  */
  function Apply(s: ScreenState, e: Fetch.Event<MoistureData>): ScreenState {
    match e
    case OnLoading => s.(isLoading := true)
    case OnSuccess(d) => s.(sensorData := Some(d), autoWateringEnabled := d.autoWatering, errorMessage := None)
    case OnError(m) => s.(errorMessage := Some(m), sensorData := None)
    case OnComplete => s.(isLoading := false)
  }

  /** The state after the callbacks of a trace have run in order. */
  function Run(s: ScreenState, trace: seq<Fetch.Event<MoistureData>>): ScreenState
    decreases |trace|
  {
    if trace == [] then s else Run(Apply(s, trace[0]), trace[1..])
  }

  lemma {:induction false} RunConcat(s: ScreenState, a: seq<Fetch.Event<MoistureData>>, b: seq<Fetch.Event<MoistureData>>)
    ensures Run(s, a + b) == Run(Run(s, a), b)
    decreases |a|
  {
    if a == [] {
      assert a + b == b;
    } else {
      assert (a + b)[1..] == a[1..] + b;
      RunConcat(Apply(s, a[0]), a[1..], b);
    }
  }

  lemma RunSingle(s: ScreenState, e: Fetch.Event<MoistureData>)
    ensures Run(s, [e]) == Apply(s, e)
  {
    assert [e][1..] == [];
  }

  /** One iteration of the polling loop: `fetchData` with all four callbacks. */
  function PollStep(s: ScreenState, o: Fetch.HttpOutcome<MoistureData>): ScreenState {
    Run(s, Fetch.FetchData(o, Fetch.AllCallbacks))
  }

  lemma PollStepUnfold(s: ScreenState, o: Fetch.HttpOutcome<MoistureData>)
    ensures PollStep(s, o) ==
      Apply(Apply(Apply(s, Fetch.OnLoading), Fetch.ReportEvent(Fetch.Classify(o))), Fetch.OnComplete)
  {
    Fetch.FetchDataAllCallbacks(o);
    var loading: Fetch.Event<MoistureData> := Fetch.OnLoading;
    var complete: Fetch.Event<MoistureData> := Fetch.OnComplete;
    var report := Fetch.ReportEvent(Fetch.Classify(o));
    RunConcat(s, [loading], [report] + [complete]);
    RunConcat(Run(s, [loading]), [report], [complete]);
    assert [loading] + ([report] + [complete]) == [loading, report, complete];
    RunSingle(s, loading);
    RunSingle(Apply(s, loading), report);
    RunSingle(Apply(Apply(s, loading), report), complete);
  }

  /** The loading flag is always reset by the end of a poll. */
  lemma PollResetsLoading(s: ScreenState, o: Fetch.HttpOutcome<MoistureData>)
    ensures !PollStep(s, o).isLoading
  {
    PollStepUnfold(s, o);
  }

  /** A successful poll replaces the data, clears the error and takes the device's switch value. */
  lemma PollSucceeded(s: ScreenState, o: Fetch.HttpOutcome<MoistureData>, d: MoistureData)
    requires Fetch.Classify(o) == Fetch.Success(d)
    ensures PollStep(s, o) == ScreenState(Some(d), false, None, d.autoWatering)
  {
    PollStepUnfold(s, o);
  }

  /** A failed poll nulls the data, shows the error and leaves the switch as it was. */
  lemma PollFailed(s: ScreenState, o: Fetch.HttpOutcome<MoistureData>, e: Fetch.FetchError)
    requires Fetch.Classify(o) == Fetch.Failure(e)
    ensures PollStep(s, o) == ScreenState(None, false, Some(Fetch.ErrorText(e)), s.autoWateringEnabled)
  {
    PollStepUnfold(s, o);
  }

  /** `fetchData()` without callbacks, as the set-moisture handler calls it, changes no screen state. */
  lemma RefreshChangesNothing(s: ScreenState, o: Fetch.HttpOutcome<MoistureData>)
    ensures Run(s, Fetch.FetchData(o, Fetch.NoCallbacks)) == s
  {
    Fetch.FetchDataNoCallbacks(o);
  }

  // ----- Rendering -----

  const NoDataText := "Brak danych z czujników"

  /** What the screen shows below the title. */
  datatype View =
    | Spinner
    | SensorPanel(data: MoistureData, autoWateringEnabled: bool)
    | ErrorNotice(message: string)
    | Placeholder(text: string)

  /** The branches of the screen's `when`, tried in order. */
  function Render(s: ScreenState): (v: View)
    ensures v.Spinner? <==> s.isLoading
    ensures v.SensorPanel? <==> !s.isLoading && s.sensorData.Some?
    ensures v.SensorPanel? ==> v == SensorPanel(s.sensorData.value, s.autoWateringEnabled)
    ensures v.ErrorNotice? <==> !s.isLoading && s.sensorData.None? && s.errorMessage.Some?
    ensures v.ErrorNotice? ==> v.message == s.errorMessage.value
    ensures v.Placeholder? ==> v.text == NoDataText
  {
    if s.isLoading then Spinner
    else if s.sensorData.Some? then SensorPanel(s.sensorData.value, s.autoWateringEnabled)
    else if s.errorMessage.Some? then ErrorNotice(s.errorMessage.value)
    else Placeholder(NoDataText)
  }

  /** After a completed poll the screen shows the fresh reading or that poll's error. */
  lemma PollShowsOutcome(s: ScreenState, o: Fetch.HttpOutcome<MoistureData>)
    ensures Fetch.Classify(o).Success? ==>
      Render(PollStep(s, o)) == SensorPanel(Fetch.Classify(o).data, Fetch.Classify(o).data.autoWatering)
    ensures Fetch.Classify(o).Failure? ==>
      Render(PollStep(s, o)) == ErrorNotice(Fetch.ErrorText(Fetch.Classify(o).error))
  {
    PollStepUnfold(s, o);
  }

  // ----- Commands -----

  function AutoWateringText(enabled: bool): string {
    "Automatyczne podlewanie " + (if enabled then "włączone" else "wyłączone")
  }

  const WateringDoneText := "Zakończono podlewanie"

  function MoistureSetText(level: int): string {
    "Ustawiono poziom wilgotności na " + Decimal.IntToString(level)
  }

  /** The auto-watering toggle: the switch moves only on success; an exception sets the error. */
  function AutoWateringStep(s: ScreenState, newState: bool, reply: Fetch.CallOutcome): ScreenState {
    match reply
    case Answered(code) => if Fetch.IsSuccessful(code) then s.(autoWateringEnabled := newState) else s
    case Threw(m) => s.(errorMessage := Some("Błąd: " + Fetch.MessageText(m)))
  }

  /** The water-now button (`debugPump`): only an exception changes the state. */
  function WaterNowStep(s: ScreenState, reply: Fetch.CallOutcome): ScreenState {
    match reply
    case Answered(_) => s
    case Threw(m) => s.(errorMessage := Some("Błąd podlewania: " + Fetch.MessageText(m)))
  }

  /** Set-moisture: success refreshes with `fetchData()` and no callbacks; failures set the error. */
  function SetMoistureStep(s: ScreenState, reply: Fetch.CallOutcome, refresh: Fetch.HttpOutcome<MoistureData>): ScreenState {
    match reply
    case Answered(code) =>
      if Fetch.IsSuccessful(code) then Run(s, Fetch.FetchData(refresh, Fetch.NoCallbacks))
      else s.(errorMessage := Some(Fetch.ServerErrorPrefix + Decimal.IntToString(code)))
    case Threw(m) => s.(errorMessage := Some("Błąd: " + Fetch.MessageText(m)))
  }

  /**
    The toggle moves the switch to the requested value exactly on success,
    changes nothing on a non-success reply, and on an exception sets only the
    error message.
  */
  lemma AutoWateringOutcome(s: ScreenState, newState: bool, reply: Fetch.CallOutcome)
    ensures reply.Succeeded() ==> AutoWateringStep(s, newState, reply) == s.(autoWateringEnabled := newState)
    ensures reply.Answered? && !reply.Succeeded() ==> AutoWateringStep(s, newState, reply) == s
    ensures reply.Threw? ==>
      AutoWateringStep(s, newState, reply) == s.(errorMessage := Some("Błąd: " + Fetch.MessageText(reply.message)))
  {
  }

  /**
    Set-moisture keeps the data: success changes nothing at all, a non-success
    reply reports the status code, an exception its message.
  */
  lemma SetMoistureOutcome(s: ScreenState, reply: Fetch.CallOutcome, refresh: Fetch.HttpOutcome<MoistureData>)
    ensures reply.Succeeded() ==> SetMoistureStep(s, reply, refresh) == s
    ensures reply.Answered? && !reply.Succeeded() ==>
      SetMoistureStep(s, reply, refresh) ==
        s.(errorMessage := Some(Fetch.ErrorText(Fetch.ServerError(reply.code))))
    ensures reply.Threw? ==>
      SetMoistureStep(s, reply, refresh) == s.(errorMessage := Some("Błąd: " + Fetch.MessageText(reply.message)))
  {
    RefreshChangesNothing(s, refresh);
  }

  /** No command touches the data or the loading flag; only the toggle touches the switch. */
  lemma CommandsKeepData(s: ScreenState, newState: bool, reply: Fetch.CallOutcome, refresh: Fetch.HttpOutcome<MoistureData>)
    ensures AutoWateringStep(s, newState, reply).sensorData == s.sensorData
    ensures AutoWateringStep(s, newState, reply).isLoading == s.isLoading
    ensures WaterNowStep(s, reply).sensorData == s.sensorData
    ensures WaterNowStep(s, reply).isLoading == s.isLoading
    ensures WaterNowStep(s, reply).autoWateringEnabled == s.autoWateringEnabled
    ensures SetMoistureStep(s, reply, refresh).sensorData == s.sensorData
    ensures SetMoistureStep(s, reply, refresh).isLoading == s.isLoading
    ensures SetMoistureStep(s, reply, refresh).autoWateringEnabled == s.autoWateringEnabled
  {
    RefreshChangesNothing(s, refresh);
  }

  /**
    While data is on screen, an error set by a failed command is not shown:
    the view stays exactly as it was. Only once a poll has nulled the data
    does the error text appear.
  */
  lemma CommandErrorHiddenBehindData(s: ScreenState, newState: bool, reply: Fetch.CallOutcome, refresh: Fetch.HttpOutcome<MoistureData>)
    requires s.sensorData.Some?
    ensures !reply.Succeeded() ==> Render(AutoWateringStep(s, newState, reply)) == Render(s)
    ensures Render(WaterNowStep(s, reply)) == Render(s)
    ensures Render(SetMoistureStep(s, reply, refresh)) == Render(s)
  {
    CommandsKeepData(s, newState, reply, refresh);
  }

  /** Without data and not loading, a command's error is what the screen shows. */
  lemma CommandErrorShownWithoutData(s: ScreenState, reply: Fetch.CallOutcome)
    requires s.sensorData.None? && !s.isLoading && reply.Threw?
    ensures Render(WaterNowStep(s, reply)) == ErrorNotice("Błąd podlewania: " + Fetch.MessageText(reply.message))
  {
  }

  /**
    A successful poll after any command leaves the same state as if the
    command had not been issued: the device's reading and switch value win.
  */
  lemma PollOverridesCommands(s: ScreenState, newState: bool, reply: Fetch.CallOutcome,
                              refresh: Fetch.HttpOutcome<MoistureData>, o: Fetch.HttpOutcome<MoistureData>)
    requires Fetch.Classify(o).Success?
    ensures PollStep(AutoWateringStep(s, newState, reply), o) == PollStep(s, o)
    ensures PollStep(WaterNowStep(s, reply), o) == PollStep(s, o)
    ensures PollStep(SetMoistureStep(s, reply, refresh), o) == PollStep(s, o)
  {
    var d := Fetch.Classify(o).data;
    PollSucceeded(s, o, d);
    PollSucceeded(AutoWateringStep(s, newState, reply), o, d);
    PollSucceeded(WaterNowStep(s, reply), o, d);
    PollSucceeded(SetMoistureStep(s, reply, refresh), o, d);
  }

  // ----- The screen -----

  class MoistureControlScreen {
    var sensorData: Option<MoistureData>
    var isLoading: bool
    var errorMessage: Option<string>
    var autoWateringEnabled: bool

    function State(): ScreenState
      reads this
    {
      ScreenState(sensorData, isLoading, errorMessage, autoWateringEnabled)
    }

    constructor ()
      ensures State() == Initial
    {
      sensorData, isLoading, errorMessage, autoWateringEnabled := None, false, None, false;
    }

    method OnLoading()
      modifies this
      ensures State() == Apply(old(State()), Fetch.OnLoading)
    {
      isLoading := true;
    }

    method OnSuccess(data: MoistureData)
      modifies this
      ensures State() == Apply(old(State()), Fetch.OnSuccess(data))
    {
      sensorData := Some(data);
      autoWateringEnabled := data.autoWatering;
      errorMessage := None;
    }

    /** Also shows the error in a snackbar, returned as `snackbar`. */
    method OnError(error: string) returns (snackbar: string)
      modifies this
      ensures State() == Apply(old(State()), Fetch.OnError(error))
      ensures snackbar == error
    {
      errorMessage := Some(error);
      sensorData := None;
      snackbar := error;
    }

    method OnComplete()
      modifies this
      ensures State() == Apply(old(State()), Fetch.OnComplete)
    {
      isLoading := false;
    }

    /**
      `fetchData` with the given callbacks present, each bound to the polling
      loop's callback above; a snackbar is shown when `onError` runs.
    */
    method FetchData(o: Fetch.HttpOutcome<MoistureData>, cb: Fetch.Callbacks) returns (snackbar: Option<string>)
      modifies this
      ensures State() == Run(old(State()), Fetch.FetchData(o, cb))
      ensures snackbar.Some? <==> cb.onError && Fetch.Classify(o).Failure?
      ensures snackbar.Some? ==> snackbar.value == Fetch.ErrorText(Fetch.Classify(o).error)
    {
      ghost var s0 := State();
      ghost var pre := Fetch.Optional(cb.onLoading, Fetch.OnLoading);
      ghost var mid := Fetch.Report(Fetch.Classify(o), cb);
      ghost var post := Fetch.Optional(cb.onComplete, Fetch.OnComplete);
      snackbar := None;
      if cb.onLoading {
        OnLoading();
        RunSingle(s0, Fetch.OnLoading);
      }
      assert State() == Run(s0, pre);
      ghost var s1 := State();
      match Fetch.Classify(o) {
        case Success(d) =>
          if cb.onSuccess {
            OnSuccess(d);
            RunSingle(s1, Fetch.OnSuccess(d));
          }
        case Failure(e) =>
          if cb.onError {
            var shown := OnError(Fetch.ErrorText(e));
            snackbar := Some(shown);
            RunSingle(s1, Fetch.OnError(Fetch.ErrorText(e)));
          }
      }
      assert State() == Run(s1, mid);
      ghost var s2 := State();
      if cb.onComplete {
        OnComplete();
        RunSingle(s2, Fetch.OnComplete);
      }
      assert State() == Run(s2, post);
      RunConcat(s0, pre, mid);
      RunConcat(s0, pre + mid, post);
    }

    /** One iteration of the polling loop. A snackbar is shown exactly when the poll failed. */
    method Poll(o: Fetch.HttpOutcome<MoistureData>) returns (snackbar: Option<string>)
      modifies this
      ensures State() == PollStep(old(State()), o)
      ensures !isLoading
      ensures snackbar == errorMessage
    {
      PollResetsLoading(State(), o);
      PollStepUnfold(State(), o);
      snackbar := FetchData(o, Fetch.AllCallbacks);
    }

    /** The auto-watering switch. */
    method SetAutoWatering(newState: bool, reply: Fetch.CallOutcome) returns (sent: Api.Request, snackbar: Option<string>)
      modifies this
      ensures sent == Api.SetAutoWatering(newState)
      ensures Api.VerbOf(sent) == Api.Post && Api.PathOf(sent) == "setAutoWatering"
      ensures State() == AutoWateringStep(old(State()), newState, reply)
      ensures snackbar.Some? <==> reply.Succeeded()
      ensures snackbar.Some? ==> snackbar.value == AutoWateringText(newState)
    {
      sent, snackbar := Api.SetAutoWatering(newState), None;
      match reply {
        case Answered(code) =>
          if Fetch.IsSuccessful(code) {
            autoWateringEnabled := newState;
            snackbar := Some(AutoWateringText(newState));
          }
        case Threw(m) =>
          errorMessage := Some("Błąd: " + Fetch.MessageText(m));
      }
    }

    /** The water-now button, which calls `debugPump`. */
    method WaterNow(reply: Fetch.CallOutcome) returns (sent: Api.Request, snackbar: Option<string>)
      modifies this
      ensures sent == Api.DebugPump
      ensures Api.VerbOf(sent) == Api.Get && Api.PathOf(sent) == "debugPump"
      ensures State() == WaterNowStep(old(State()), reply)
      ensures snackbar.Some? <==> reply.Succeeded()
      ensures snackbar.Some? ==> snackbar.value == WateringDoneText
    {
      sent, snackbar := Api.DebugPump, None;
      match reply {
        case Answered(code) =>
          if Fetch.IsSuccessful(code) {
            snackbar := Some(WateringDoneText);
          }
        case Threw(m) =>
          errorMessage := Some("Błąd podlewania: " + Fetch.MessageText(m));
      }
    }

    /**
      The set-moisture button, with the level the slider shows: the device's
      `desiredMoisture` until the slider is moved. On success it refreshes
      with `fetchData()`, whose outcome is `refresh`.
    */
    method SetDesiredMoisture(level: int, reply: Fetch.CallOutcome, refresh: Fetch.HttpOutcome<MoistureData>)
      returns (sent: seq<Api.Request>, snackbar: Option<string>)
      modifies this
      ensures forall i :: 0 <= i < |sent| ==> Api.VerbOf(sent[i]) == (if i == 0 then Api.Post else Api.Get)
      ensures sent == if reply.Succeeded() then [Api.SetDesiredMoisture(level), Api.GetSensorData]
                      else [Api.SetDesiredMoisture(level)]
      ensures State() == SetMoistureStep(old(State()), reply, refresh)
      ensures snackbar.Some? <==> reply.Succeeded()
      ensures snackbar.Some? ==> snackbar.value == MoistureSetText(level)
    {
      sent, snackbar := [Api.SetDesiredMoisture(level)], None;
      match reply {
        case Answered(code) =>
          if Fetch.IsSuccessful(code) {
            snackbar := Some(MoistureSetText(level));
            var refreshed := FetchData(refresh, Fetch.NoCallbacks);
            sent := sent + [Api.GetSensorData];
          } else {
            errorMessage := Some(Fetch.ServerErrorPrefix + Decimal.IntToString(code));
          }
        case Threw(m) =>
          errorMessage := Some("Błąd: " + Fetch.MessageText(m));
      }
    }
  }
}

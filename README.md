# AgroCzuwacz polling screen, modelled in Dafny

AgroCzuwacz is an Android app that polls a soil-moisture controller over HTTP.
Every poll is a GET of `/data`. The user can also send commands. Both variants
toggle auto-watering and set the desired moisture. `NameIsNotImportant` also
has a water-now button, and `czujnaaplikacja` can set the pump duration.
`czujnaaplikacja` has a water-now handler, but no button of its control
panel calls it. The repository has two variants of the same screen,
`czujnaaplikacja` and `NameIsNotImportant`. This project models the logic of
that screen in both variants. It has three parts:

- `fetchData`, which maps one HTTP outcome to the callbacks it invokes.
- The four pieces of screen state (`sensorData`, `isLoading`,
  `errorMessage`, `autoWateringEnabled`) and how the polling callbacks and
  the command handlers update them.
- The view the screen's `when` expression picks, and the pump-duration
  input check.

Files and modules:

- `wrappers.dfy` (`Wrappers`): `Option`, standing for Kotlin's nullable types.
- `decimal.dfy` (`Decimal`): how a string template renders an `Int`. It is
  proved against its inverse, so no two status codes render to the same text.
- `api.dfy` (`Api`): the requests of the two `ApiService` interfaces, with
  their HTTP verbs and paths.
- `fetch.dfy` (`Fetch`): the shared `fetchData`. The network call is replaced
  by its outcome (`Response(code, body)`, `HttpException(code)` or
  `OtherException(message)`). `Classify` maps the outcome to a success or one
  of four failures. `ErrorText` gives each failure's fixed message, and
  `DecodeErrorText` is its inverse. `fetchData` itself is the trace of
  callback invocations (`OnLoading`, `OnSuccess(d)`, `OnError(m)`,
  `OnComplete`). Its `Callbacks` argument says which of the four optional
  callbacks the caller passed.
- `czujnaaplikacja.dfy` (`CzujnaAplikacja`) and `nameisnotimportant.dfy`
  (`NameIsNotImportant`) have the same layout:
  - the variant's `MoistureData` record and a `ScreenState` value;
  - `Apply` and `Run`, which say what the polling callbacks do to the state,
    and `PollStep`, one poll cycle;
  - `Render`;
  - a `MoistureControlScreen` class whose fields are the four state
    variables and whose methods are the callbacks, the poll and the command
    handlers.

  In `CzujnaAplikacja` the handlers read no state and only return the
  snackbar text. In `NameIsNotImportant` they change the
  state, as the pure step functions `AutoWateringStep`, `WaterNowStep` and
  `SetMoistureStep` say.

The model follows the code:

- A failed poll sets `sensorData` to null. It does not keep the last good
  reading.
- Poll and command results carry no sequence numbers, and late results are
  not discarded.
- Only `NameIsNotImportant` reflects a successful auto-watering toggle
  locally, and the next successful poll overrides it (`PollOverridesCommands`).
- A non-2xx response gives "Błąd serwera: <code>". A thrown `HttpException`
  gives "Błąd HTTP: <code>".
- In `NameIsNotImportant`, a successful set-moisture runs `fetchData()` with
  no callbacks, and a comment there calls it a forced refresh. It updates
  nothing on screen (`RefreshChangesNothing`); the new value appears only
  with the next poll.

## Model

| member | source | states |
|---|---|---|
| `Decimal.IntToString` | czujnaaplikacja/app/src/main/java/com/example/chujglupi/MainActivity.kt:446 | the rendering of a code is non-empty and starts with '-' exactly for negative numbers |
| `Decimal.ParseIntToString` | czujnaaplikacja/app/src/main/java/com/example/chujglupi/MainActivity.kt:446 | reading back the rendering of any integer gives the integer |
| `Decimal.IntToStringInjective` | czujnaaplikacja/app/src/main/java/com/example/chujglupi/MainActivity.kt:446 | two codes render to the same text iff they are equal |
| `Fetch.IsSuccessful` | czujnaaplikacja/app/src/main/java/com/example/chujglupi/MainActivity.kt:436 | `isSuccessful`: the status code is in 200..299 (used by `Classify` and the command handlers) |
| `Fetch.ErrorText` | czujnaaplikacja/app/src/main/java/com/example/chujglupi/MainActivity.kt:441-455 | the fixed message of each failure; `ErrorTextDecodes` proves each decodes back to its failure |
| `Fetch.Classify` | czujnaaplikacja/app/src/main/java/com/example/chujglupi/MainActivity.kt:436-457 | success iff the response is 2xx and has a body, carrying that body; 2xx without a body is EmptyBody; non-2xx is ServerError(code); HttpException is HttpError(code); any other exception is ConnectionError(message) |
| `Fetch.ErrorTextDecodes` | czujnaaplikacja/app/src/main/java/com/example/chujglupi/MainActivity.kt:441-455 | each of the four error messages can be decoded back to the failure and the code or detail it reports |
| `Fetch.ErrorTextInjective` | czujnaaplikacja/app/src/main/java/com/example/chujglupi/MainActivity.kt:441-455 | two failures give the same message iff they are the same failure |
| `Fetch.FetchData` | czujnaaplikacja/app/src/main/java/com/example/chujglupi/MainActivity.kt:425-461 | the callbacks `fetchData` invokes, at most three, with loading never after another callback and complete never before one; the lemmas below prove the rest |
| `Fetch.FetchDataBracket` | czujnaaplikacja/app/src/main/java/com/example/chujglupi/MainActivity.kt:431-460 | whatever the outcome, `onLoading` (when given) is the first callback and `onComplete` (when given) is the last, and each appears iff it was passed |
| `Fetch.FetchDataReportsOnce` | czujnaaplikacja/app/src/main/java/com/example/chujglupi/MainActivity.kt:436-457 | at most one of `onSuccess`/`onError` fires, and exactly one when both are given |
| `Fetch.FetchDataSuccess` | czujnaaplikacja/app/src/main/java/com/example/chujglupi/MainActivity.kt:436-439 | `onSuccess(d)` fires iff it was given and the response is 2xx with body d |
| `Fetch.FetchDataError` | czujnaaplikacja/app/src/main/java/com/example/chujglupi/MainActivity.kt:440-457 | `onError(m)` fires iff it was given and the outcome is a failure whose message is m |
| `Fetch.FetchDataAllCallbacks` | czujnaaplikacja/app/src/main/java/com/example/chujglupi/MainActivity.kt:53-68 | with all four callbacks, the trace is exactly loading, the one report, complete |
| `Fetch.FetchDataNoCallbacks` | NameIsNotImportant/app/src/main/java/com/example/chujglupi/MainActivity.kt:382-387 | with no callbacks (all default to null), `fetchData` invokes nothing |
| `Fetch.FetchDataAsWritten` | czujnaaplikacja/app/src/main/java/com/example/chujglupi/MainActivity.kt:437-444 | `fetchData` transcribed branch by branch; even as written, `onLoading` comes first and `onComplete` last whenever they are given |
| `Fetch.AsWrittenMisreportsPresentBody` | czujnaaplikacja/app/src/main/java/com/example/chujglupi/MainActivity.kt:437-444 | with `onSuccess` null and `onError` given, the code as written reports "Brak danych w odpowiedzi" for a 2xx response that has a body |
| `Fetch.AsWrittenAgreesForCallers` | NameIsNotImportant/app/src/main/java/com/example/chujglupi/MainActivity.kt:388-417 | when `onSuccess` is given or `onError` is not (the only ways either screen calls it), the code as written invokes exactly the intended callbacks |
| `CzujnaAplikacja.Apply` | czujnaaplikacja/app/src/main/java/com/example/chujglupi/MainActivity.kt:54-67 | what each of the four polling callbacks does to the screen state; `PollSucceeded` and `PollFailed` state the results |
| `CzujnaAplikacja.PollStep` | czujnaaplikacja/app/src/main/java/com/example/chujglupi/MainActivity.kt:53-68 | one loop iteration: the callbacks of the `fetchData` trace applied in order; properties in `PollResetsLoading`, `PollSucceeded`, `PollFailed` |
| `CzujnaAplikacja.PollStepUnfold` | czujnaaplikacja/app/src/main/java/com/example/chujglupi/MainActivity.kt:53-68 | a poll cycle is the loading callback, then the success or error callback the outcome calls for, then the complete callback |
| `CzujnaAplikacja.PollResetsLoading` | czujnaaplikacja/app/src/main/java/com/example/chujglupi/MainActivity.kt:54-67 | `isLoading` is false after every poll cycle |
| `CzujnaAplikacja.PollSucceeded` | czujnaaplikacja/app/src/main/java/com/example/chujglupi/MainActivity.kt:55-59 | a successful poll sets the data to the body and clears the error; it copies `autoWatering` only when the field is non-null and otherwise keeps the switch |
| `CzujnaAplikacja.PollFailed` | czujnaaplikacja/app/src/main/java/com/example/chujglupi/MainActivity.kt:60-62 | a failed poll nulls the data, sets the error to the failure's message and keeps the switch |
| `CzujnaAplikacja.Render` | czujnaaplikacja/app/src/main/java/com/example/chujglupi/MainActivity.kt:115-205 | spinner iff loading; otherwise the data panel (with the switch and `pumpDuration`) iff there is data; otherwise the error text iff there is one; otherwise "Brak danych z czujników" |
| `CzujnaAplikacja.PollShowsOutcome` | czujnaaplikacja/app/src/main/java/com/example/chujglupi/MainActivity.kt:115-205 | after a poll the screen shows the data panel iff the poll succeeded, with that reading, and otherwise exactly that poll's error text |
| `CzujnaAplikacja.Feedback` | czujnaaplikacja/app/src/main/java/com/example/chujglupi/MainActivity.kt:137-187 | the snackbar every command handler shows: its success text, "Błąd: <code>" or "Błąd połączenia: <message>"; `FeedbackSignalsFailure` proves it signals failure exactly when the call failed |
| `CzujnaAplikacja.FeedbackSignalsFailure` | czujnaaplikacja/app/src/main/java/com/example/chujglupi/MainActivity.kt:137-144 | a command's snackbar begins with "Błąd" iff its call did not succeed |
| `CzujnaAplikacja.MoistureControlScreen.constructor` | czujnaaplikacja/app/src/main/java/com/example/chujglupi/MainActivity.kt:42-45 | the screen starts with no data, not loading, no error and auto-watering off |
| `CzujnaAplikacja.MoistureControlScreen.OnLoading` | czujnaaplikacja/app/src/main/java/com/example/chujglupi/MainActivity.kt:54 | sets only `isLoading` |
| `CzujnaAplikacja.MoistureControlScreen.OnSuccess` | czujnaaplikacja/app/src/main/java/com/example/chujglupi/MainActivity.kt:55-59 | the state afterwards is the success callback applied to the state before |
| `CzujnaAplikacja.MoistureControlScreen.OnError` | czujnaaplikacja/app/src/main/java/com/example/chujglupi/MainActivity.kt:60-66 | the state afterwards is the error callback applied to the state before, and a snackbar shows the error |
| `CzujnaAplikacja.MoistureControlScreen.OnComplete` | czujnaaplikacja/app/src/main/java/com/example/chujglupi/MainActivity.kt:67 | clears only `isLoading` |
| `CzujnaAplikacja.MoistureControlScreen.Poll` | czujnaaplikacja/app/src/main/java/com/example/chujglupi/MainActivity.kt:51-71 | one loop iteration gives the state `PollStep` specifies, with loading off; a snackbar appears iff the poll failed, and it equals the displayed error |
| `CzujnaAplikacja.MoistureControlScreen.SetAutoWatering` | czujnaaplikacja/app/src/main/java/com/example/chujglupi/MainActivity.kt:133-146 | sends `setAutoWatering(enabled)`, changes no state, and shows the on/off text on success, "Błąd: <code>" on a non-success reply and "Błąd połączenia: <message>" on an exception |
| `CzujnaAplikacja.MoistureControlScreen.WaterNow` | czujnaaplikacja/app/src/main/java/com/example/chujglupi/MainActivity.kt:147-160 | the handler (which no button of the panel calls) sends `waterPlant`, changes no state, and its snackbar signals failure iff the call failed |
| `CzujnaAplikacja.MoistureControlScreen.SetDesiredMoisture` | czujnaaplikacja/app/src/main/java/com/example/chujglupi/MainActivity.kt:161-174 | sends `setMoisture(level)` for whatever level the slider shows, changes no state, and reports as the other commands do |
| `CzujnaAplikacja.MoistureControlScreen.SetPumpDuration` | czujnaaplikacja/app/src/main/java/com/example/chujglupi/MainActivity.kt:175-188 | sends `setPumpDuration(duration)`, changes no state, and reports as the other commands do |
| `CzujnaAplikacja.MoistureControlScreen.PumpDurationButton` | czujnaaplikacja/app/src/main/java/com/example/chujglupi/MainActivity.kt:408-414 | a request is sent iff the input parsed to an integer greater than 0, and it carries that integer; otherwise nothing is sent and nothing is shown |
| `NameIsNotImportant.Apply` | NameIsNotImportant/app/src/main/java/com/example/chujglupi/MainActivity.kt:55-68 | what each of the four polling callbacks does to the screen state; `PollSucceeded` and `PollFailed` state the results |
| `NameIsNotImportant.PollStep` | NameIsNotImportant/app/src/main/java/com/example/chujglupi/MainActivity.kt:54-69 | one loop iteration: the callbacks of the `fetchData` trace applied in order; properties in `PollResetsLoading`, `PollSucceeded`, `PollFailed` |
| `NameIsNotImportant.AutoWateringStep` | NameIsNotImportant/app/src/main/java/com/example/chujglupi/MainActivity.kt:110-126 | the state after the toggle's reply; `AutoWateringOutcome` and `CommandsKeepData` state its cases |
| `NameIsNotImportant.WaterNowStep` | NameIsNotImportant/app/src/main/java/com/example/chujglupi/MainActivity.kt:128-139 | the state after the water-now reply; `CommandsKeepData` and `CommandErrorShownWithoutData` state its effect |
| `NameIsNotImportant.SetMoistureStep` | NameIsNotImportant/app/src/main/java/com/example/chujglupi/MainActivity.kt:141-162 | the state after the set-moisture reply, including the callback-less refresh; `SetMoistureOutcome` states its cases |
| `NameIsNotImportant.RefreshChangesNothing` | NameIsNotImportant/app/src/main/java/com/example/chujglupi/MainActivity.kt:152 | the `fetchData()` refresh without callbacks leaves the screen state unchanged, whatever its outcome |
| `NameIsNotImportant.PollStepUnfold` | NameIsNotImportant/app/src/main/java/com/example/chujglupi/MainActivity.kt:54-69 | a poll cycle is the loading callback, the success or error callback the outcome calls for, then the complete callback |
| `NameIsNotImportant.PollResetsLoading` | NameIsNotImportant/app/src/main/java/com/example/chujglupi/MainActivity.kt:55-68 | `isLoading` is false after every poll cycle |
| `NameIsNotImportant.PollSucceeded` | NameIsNotImportant/app/src/main/java/com/example/chujglupi/MainActivity.kt:56-60 | a successful poll replaces the data, clears the error and sets the switch to the reading's `autoWatering` |
| `NameIsNotImportant.PollFailed` | NameIsNotImportant/app/src/main/java/com/example/chujglupi/MainActivity.kt:61-63 | a failed poll nulls the data, sets the error to the failure's message and keeps the switch |
| `NameIsNotImportant.Render` | NameIsNotImportant/app/src/main/java/com/example/chujglupi/MainActivity.kt:93-181 | spinner iff loading; otherwise the data panel iff there is data; otherwise the error text iff there is one; otherwise "Brak danych z czujników" |
| `NameIsNotImportant.PollShowsOutcome` | NameIsNotImportant/app/src/main/java/com/example/chujglupi/MainActivity.kt:93-181 | after a poll the screen shows the fresh reading with its switch value, or exactly that poll's error text |
| `NameIsNotImportant.AutoWateringOutcome` | NameIsNotImportant/app/src/main/java/com/example/chujglupi/MainActivity.kt:110-126 | a successful toggle sets only the switch, to the requested value; a non-success reply changes nothing; an exception sets only the error to "Błąd: <message>" |
| `NameIsNotImportant.SetMoistureOutcome` | NameIsNotImportant/app/src/main/java/com/example/chujglupi/MainActivity.kt:141-163 | success changes nothing; a non-success reply sets only the error to "Błąd serwera: <code>"; an exception sets only the error to "Błąd: <message>" |
| `NameIsNotImportant.CommandsKeepData` | NameIsNotImportant/app/src/main/java/com/example/chujglupi/MainActivity.kt:110-163 | no command changes the data or the loading flag, and only the toggle changes the switch |
| `NameIsNotImportant.CommandErrorHiddenBehindData` | NameIsNotImportant/app/src/main/java/com/example/chujglupi/MainActivity.kt:93-181 | while data is shown, a failed command leaves the view exactly as it was, so its error is not displayed |
| `NameIsNotImportant.CommandErrorShownWithoutData` | NameIsNotImportant/app/src/main/java/com/example/chujglupi/MainActivity.kt:166-179 | with no data and no loading, a failed water-now shows "Błąd podlewania: <message>" |
| `NameIsNotImportant.PollOverridesCommands` | NameIsNotImportant/app/src/main/java/com/example/chujglupi/MainActivity.kt:52-72 | after any command, a successful poll leaves the same state as if the command had not run: the device's reading and switch value win |
| `NameIsNotImportant.MoistureControlScreen.constructor` | NameIsNotImportant/app/src/main/java/com/example/chujglupi/MainActivity.kt:44-47 | the screen starts with no data, not loading, no error and auto-watering off |
| `NameIsNotImportant.MoistureControlScreen.OnLoading` | NameIsNotImportant/app/src/main/java/com/example/chujglupi/MainActivity.kt:55 | sets only `isLoading` |
| `NameIsNotImportant.MoistureControlScreen.OnSuccess` | NameIsNotImportant/app/src/main/java/com/example/chujglupi/MainActivity.kt:56-60 | the state afterwards is the success callback applied to the state before |
| `NameIsNotImportant.MoistureControlScreen.OnError` | NameIsNotImportant/app/src/main/java/com/example/chujglupi/MainActivity.kt:61-67 | the state afterwards is the error callback applied to the state before, and a snackbar shows the error |
| `NameIsNotImportant.MoistureControlScreen.OnComplete` | NameIsNotImportant/app/src/main/java/com/example/chujglupi/MainActivity.kt:68 | clears only `isLoading` |
| `NameIsNotImportant.MoistureControlScreen.FetchData` | NameIsNotImportant/app/src/main/java/com/example/chujglupi/MainActivity.kt:382-418 | invoking the given callbacks leaves the state that running the `fetchData` trace gives; a snackbar appears iff `onError` was given and the outcome failed, and it shows that failure's message |
| `NameIsNotImportant.MoistureControlScreen.Poll` | NameIsNotImportant/app/src/main/java/com/example/chujglupi/MainActivity.kt:52-72 | one loop iteration gives the state `PollStep` specifies, with loading off, and the snackbar equals the displayed error |
| `NameIsNotImportant.MoistureControlScreen.SetAutoWatering` | NameIsNotImportant/app/src/main/java/com/example/chujglupi/MainActivity.kt:110-127 | sends `setAutoWatering(newState)` and leaves the state `AutoWateringStep` gives; a snackbar appears iff the call succeeded |
| `NameIsNotImportant.MoistureControlScreen.WaterNow` | NameIsNotImportant/app/src/main/java/com/example/chujglupi/MainActivity.kt:128-140 | sends `debugPump` and leaves the state `WaterNowStep` gives; "Zakończono podlewanie" iff the call succeeded |
| `NameIsNotImportant.MoistureControlScreen.SetDesiredMoisture` | NameIsNotImportant/app/src/main/java/com/example/chujglupi/MainActivity.kt:141-163 | sends `setMoisture(level)` (a POST), followed by a refresh GET iff it succeeded; it leaves the state `SetMoistureStep` gives and shows a snackbar iff it succeeded |
| `Api.VerbOf` | czujnaaplikacja/app/src/main/java/com/example/chujglupi/network/ApiService.kt:11-28 | the HTTP verb each endpoint is declared with; the handlers' contracts state the verb of what they send |
| `Api.PathOf` | czujnaaplikacja/app/src/main/java/com/example/chujglupi/network/ApiService.kt:11-28 | the path each endpoint is declared with, never empty; the handlers' contracts state the path of what they send |
| `Api.PathIdentifiesOperation` | czujnaaplikacja/app/src/main/java/com/example/chujglupi/network/ApiService.kt:11-28 | two requests share a path iff they are the same operation |

## Left out

- The `while (true)` polling loop, the 10-second `delay` and the coroutine launches. One poll, or one command's reply, is one atomic step. How a command's coroutine interleaves with a poll is not modelled beyond composing steps (`PollOverridesCommands`).
- Compose layout, cards, colours, the dark-mode switch and the theme: these are presentation only. `Render` keeps only which branch is shown and what data it carries.
- The Retrofit transport and the Moshi decoding. A malformed body throws inside the call and arrives as `OtherException`. The `ApiService` interfaces appear only as the request each handler sends (`Api`).
- Firebase messaging and `WaterActionReceiver`: notification I/O, and a fire-and-forget `waterPlant` call whose errors are swallowed.
- Logging. This includes the "Brak danych w odpowiedzi" log line that the set-moisture refresh writes on every successful reply (see Findings).
- Snackbar display: only the text is modelled, as an output.
- Floating point: temperature and humidity are passed through as `real`. The `"%.1f"` formatting and the slider's float-to-int conversion are not modelled. The level sent is any integer. It is the slider's value (0..4095) once the slider has been moved, and until then the device-reported `desiredMoisture`.
- `toIntOrNull`: the pump-duration input arrives already parsed, as an `Option<int>`.
- Kotlin's 32-bit `Int`: codes and levels are only passed on and rendered, never computed with, so they are unbounded integers.
- Exceptions thrown by the callbacks themselves: none of the screens' callbacks throw.
- czujnaaplikacja's model/MoistureData.kt is not part of this model. Its record's fields come from the fields the screen uses, with `pumpDuration` read at line 132. `autoWatering` is treated as nullable (`Option<bool>`), which covers both a nullable and a non-null field.

## Findings

| source | as written | input that shows it | evidently intended | confidence | as-written member | corrected member |
|---|---|---|---|---|---|---|
| czujnaaplikacja/app/src/main/java/com/example/chujglupi/MainActivity.kt:437-444 (same code at NameIsNotImportant/app/src/main/java/com/example/chujglupi/MainActivity.kt:394-401) | the null-body fallback (`?: run`) takes the value of the `let` block, which is the result of the safe call on `onSuccess`; when `onSuccess` is null, that value is null too, so the fallback runs although a body is present | `fetchData` called with a null `onSuccess` and some `onError`, on a 2xx response with a body: `onError("Brak danych w odpowiedzi")` fires. NameIsNotImportant's set-moisture refresh (all callbacks null) takes the same wrong branch and logs that error after every successful reply | the fallback runs only when the body is null | medium: follows from Kotlin's `let`/`?:` semantics; no callback of either screen observes it; not executed | `Fetch.AsWrittenMisreportsPresentBody` (about `Fetch.FetchDataAsWritten`) | `Fetch.FetchData` (properties in `Fetch.FetchDataSuccess`, `Fetch.FetchDataError`, `Fetch.FetchDataReportsOnce`; agreement for the callers in `Fetch.AsWrittenAgreesForCallers`) |

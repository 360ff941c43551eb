/**
  The `fetchData` helper shared by both screens: one GET of the sensor data,
  classified into success or one of four errors, reported through four
  optional callbacks. The network call is replaced by its outcome, and each
  callback invocation is recorded as an event, so `fetchData` becomes the
  trace of callbacks it invokes.
*/
module Fetch {
  import opened Wrappers
  import Decimal

  /** What the call `getSensorData()` produced. */
  datatype HttpOutcome<+T> =
    | Response(code: int, body: Option<T>)  // the call returned; `body()` may be null
    | HttpException(code: int)              // retrofit2.HttpException was thrown
    | OtherException(message: Option<string>) // any other exception, with its nullable message

  /** `Response.isSuccessful`: the status code is in 200..299. */
  predicate IsSuccessful(code: int) {
    200 <= code < 300
  }

  /** What a command call (`Response<Unit>`) produced. */
  datatype CallOutcome = Answered(code: int) | Threw(message: Option<string>) {
    predicate Succeeded() {
      Answered? && IsSuccessful(code)
    }
  }

  /** How a string template renders a nullable message: `null` prints as "null". */
  function MessageText(message: Option<string>): (t: string)
    ensures message.Some? ==> t == message.value
    ensures message.None? ==> t == "null"
  {
    match message
    case Some(m) => m
    case None => "null"
  }

  predicate StartsWith(s: string, prefix: string) {
    |prefix| <= |s| && s[..|prefix|] == prefix
  }

  // ----- Classification -----

  datatype FetchError =
    | EmptyBody
    | ServerError(code: int)
    | HttpError(code: int)
    | ConnectionError(detail: string)

  datatype Result<+T> = Success(data: T) | Failure(error: FetchError)

  const EmptyBodyText := "Brak danych w odpowiedzi"
  const ServerErrorPrefix := "Błąd serwera: "
  const HttpErrorPrefix := "Błąd HTTP: "
  const ConnectionErrorPrefix := "Błąd połączenia: "

  /** The message handed to `onError` for each kind of failure. */
  function ErrorText(e: FetchError): string {
    match e
    case EmptyBody => EmptyBodyText
    case ServerError(c) => ServerErrorPrefix + Decimal.IntToString(c)
    case HttpError(c) => HttpErrorPrefix + Decimal.IntToString(c)
    case ConnectionError(d) => ConnectionErrorPrefix + d
  }

  /** Maps one outcome to exactly one of success (with the body) or a failure. */
  function Classify<T>(o: HttpOutcome<T>): (r: Result<T>)
    ensures r.Success? <==> o.Response? && IsSuccessful(o.code) && o.body.Some?
    ensures r.Success? ==> r.data == o.body.value
    ensures o.Response? && IsSuccessful(o.code) && o.body.None? ==> r == Failure(EmptyBody)
    ensures o.Response? && !IsSuccessful(o.code) ==> r == Failure(ServerError(o.code))
    ensures o.HttpException? ==> r == Failure(HttpError(o.code))
    ensures o.OtherException? ==> r == Failure(ConnectionError(MessageText(o.message)))
  {
    match o
    case Response(code, body) =>
      if !IsSuccessful(code) then Failure(ServerError(code))
      else if body.Some? then Success(body.value)
      else Failure(EmptyBody)
    case HttpException(code) => Failure(HttpError(code))
    case OtherException(message) => Failure(ConnectionError(MessageText(message)))
  }

  /** Recovers the failure from its message; the partner of ErrorText. */
  function DecodeErrorText(t: string): Option<FetchError> {
    if t == EmptyBodyText then Some(EmptyBody)
    else if StartsWith(t, ConnectionErrorPrefix) then
      Some(ConnectionError(t[|ConnectionErrorPrefix|..]))
    else if StartsWith(t, ServerErrorPrefix) then
      match Decimal.ParseInt(t[|ServerErrorPrefix|..])
      case Some(c) => Some(ServerError(c))
      case None => None
    else if StartsWith(t, HttpErrorPrefix) then
      match Decimal.ParseInt(t[|HttpErrorPrefix|..])
      case Some(c) => Some(HttpError(c))
      case None => None
    else None
  }

  lemma ConcatStartsWith(p: string, x: string)
    ensures StartsWith(p + x, p) && (p + x)[|p|..] == x
  {
    assert (p + x)[..|p|] == p;
  }

  lemma DiffersAt(s: string, p: string, i: nat)
    requires i < |p| && i < |s| && s[i] != p[i]
    ensures !StartsWith(s, p)
  {
  }

  lemma ServerErrorDecodes(c: int)
    ensures DecodeErrorText(ErrorText(ServerError(c))) == Some(ServerError(c))
  {
    var t := ErrorText(ServerError(c));
    ConcatStartsWith(ServerErrorPrefix, Decimal.IntToString(c));
    assert t[1] == 'ł' && t[5] == 's';
    assert t != EmptyBodyText by { assert EmptyBodyText[1] == 'r'; }
    DiffersAt(t, ConnectionErrorPrefix, 5);
    Decimal.ParseIntToString(c);
  }

  lemma HttpErrorDecodes(c: int)
    ensures DecodeErrorText(ErrorText(HttpError(c))) == Some(HttpError(c))
  {
    var t := ErrorText(HttpError(c));
    ConcatStartsWith(HttpErrorPrefix, Decimal.IntToString(c));
    assert t[1] == 'ł' && t[5] == 'H';
    assert t != EmptyBodyText by { assert EmptyBodyText[1] == 'r'; }
    DiffersAt(t, ConnectionErrorPrefix, 5);
    DiffersAt(t, ServerErrorPrefix, 5);
    Decimal.ParseIntToString(c);
  }

  lemma ConnectionErrorDecodes(d: string)
    ensures DecodeErrorText(ErrorText(ConnectionError(d))) == Some(ConnectionError(d))
  {
    var t := ErrorText(ConnectionError(d));
    ConcatStartsWith(ConnectionErrorPrefix, d);
    assert t[1] == 'ł';
    assert t != EmptyBodyText by { assert EmptyBodyText[1] == 'r'; }
  }

  /** Every error message says which failure it reports, and with which code or detail. */
  lemma ErrorTextDecodes(e: FetchError)
    ensures DecodeErrorText(ErrorText(e)) == Some(e)
  {
    match e
    case EmptyBody =>
    case ServerError(c) => ServerErrorDecodes(c);
    case HttpError(c) => HttpErrorDecodes(c);
    case ConnectionError(d) => ConnectionErrorDecodes(d);
  }

  /** Distinct failures never produce the same message. */
  lemma ErrorTextInjective(e1: FetchError, e2: FetchError)
    ensures ErrorText(e1) == ErrorText(e2) <==> e1 == e2
  {
    ErrorTextDecodes(e1);
    ErrorTextDecodes(e2);
  }

  // ----- Callbacks -----

  /** Which of the four optional callbacks a caller passed (true: non-null). */
  datatype Callbacks = Callbacks(onLoading: bool, onSuccess: bool, onError: bool, onComplete: bool)

  /** The polling loop passes all four callbacks. */
  const AllCallbacks := Callbacks(true, true, true, true)
  /** The refresh after a successful set-moisture command passes none. */
  const NoCallbacks := Callbacks(false, false, false, false)

  /** One invocation of a callback. */
  datatype Event<+T> = OnLoading | OnSuccess(data: T) | OnError(message: string) | OnComplete

  predicate IsReport<T>(e: Event<T>) {
    e.OnSuccess? || e.OnError?
  }

  /** The number of `onSuccess`/`onError` invocations in a trace. */
  function Reports<T>(trace: seq<Event<T>>): nat
    decreases |trace|
  {
    if trace == [] then 0 else (if IsReport(trace[0]) then 1 else 0) + Reports(trace[1..])
  }

  function Optional<T>(present: bool, e: Event<T>): seq<Event<T>> {
    if present then [e] else []
  }

  /** The callback the classified outcome calls, if the caller passed it. */
  function Report<T>(r: Result<T>, cb: Callbacks): seq<Event<T>> {
    match r
    case Success(d) => Optional(cb.onSuccess, OnSuccess(d))
    case Failure(e) => Optional(cb.onError, OnError(ErrorText(e)))
  }

  /** The report a classified outcome calls for. */
  function ReportEvent<T>(r: Result<T>): Event<T> {
    match r
    case Success(d) => OnSuccess(d)
    case Failure(e) => OnError(ErrorText(e))
  }

  /**
    The callbacks `fetchData` invokes, in order: `onLoading` before the call,
    then the one report the outcome calls for, and `onComplete` from the
    `finally` block.
  */
  function FetchData<T>(o: HttpOutcome<T>, cb: Callbacks): (trace: seq<Event<T>>)
    ensures |trace| <= 3
    ensures forall i :: 0 <= i < |trace| && trace[i] == OnLoading ==> i == 0
    ensures forall i :: 0 <= i < |trace| && trace[i] == OnComplete ==> i == |trace| - 1
  {
    Optional(cb.onLoading, OnLoading) + Report(Classify(o), cb) + Optional(cb.onComplete, OnComplete)
  }

  /** `onLoading` comes first and `onComplete` last, whatever the outcome. */
  lemma FetchDataBracket<T>(o: HttpOutcome<T>, cb: Callbacks)
    ensures var t := FetchData(o, cb);
      && (cb.onLoading ==> |t| > 0 && t[0] == OnLoading)
      && (cb.onComplete ==> |t| > 0 && t[|t| - 1] == OnComplete)
      && (OnLoading in t <==> cb.onLoading)
      && (OnComplete in t <==> cb.onComplete)
  {
  }

  lemma {:induction false} ReportsConcat<T>(a: seq<Event<T>>, b: seq<Event<T>>)
    ensures Reports(a + b) == Reports(a) + Reports(b)
    decreases |a|
  {
    if a == [] {
      assert a + b == b;
    } else {
      assert (a + b)[1..] == a[1..] + b;
      ReportsConcat(a[1..], b);
    }
  }

  /** At most one of `onSuccess`/`onError` fires, and exactly one when both are given. */
  lemma FetchDataReportsOnce<T>(o: HttpOutcome<T>, cb: Callbacks)
    ensures Reports(FetchData(o, cb)) <= 1
    ensures cb.onSuccess && cb.onError ==> Reports(FetchData(o, cb)) == 1
  {
    var pre, mid, post := Optional(cb.onLoading, OnLoading), Report(Classify(o), cb), Optional(cb.onComplete, OnComplete);
    ReportsConcat(pre, mid);
    ReportsConcat(pre + mid, post);
  }

  /** `onSuccess` fires iff the response is successful with a body, and receives that body. */
  lemma FetchDataSuccess<T>(o: HttpOutcome<T>, cb: Callbacks, d: T)
    ensures OnSuccess(d) in FetchData(o, cb) <==>
      cb.onSuccess && o.Response? && IsSuccessful(o.code) && o.body == Some(d)
  {
  }

  /** `onError` fires iff the outcome is a failure, with that failure's message. */
  lemma FetchDataError<T>(o: HttpOutcome<T>, cb: Callbacks, m: string)
    ensures OnError(m) in FetchData(o, cb) <==>
      cb.onError && Classify(o).Failure? && m == ErrorText(Classify(o).error)
  {
  }

  /** With all four callbacks given, the trace is loading, the one report, complete. */
  lemma FetchDataAllCallbacks<T>(o: HttpOutcome<T>)
    ensures FetchData(o, AllCallbacks) == [OnLoading, ReportEvent(Classify(o)), OnComplete]
  {
  }

  /** With no callbacks given, `fetchData` invokes nothing. */
  lemma FetchDataNoCallbacks<T>(o: HttpOutcome<T>)
    ensures FetchData(o, NoCallbacks) == []
  {
  }

  // ----- The code as written -----

  /**
    `fetchData` transcribed branch by branch. The successful branch reads
    `response.body()?.let { onSuccess?.invoke(it) } ?: run { ... }`: when
    `onSuccess` is null the `let` yields null as well, so the empty-body branch
    runs although a body is present.
  */
  function FetchDataAsWritten<T>(o: HttpOutcome<T>, cb: Callbacks): (trace: seq<Event<T>>)
    ensures cb.onLoading ==> |trace| > 0 && trace[0] == OnLoading
    ensures cb.onComplete ==> |trace| > 0 && trace[|trace| - 1] == OnComplete
    ensures |trace| <= 3
  {
    Optional(cb.onLoading, OnLoading)
    + (match o
       case Response(code, body) =>
         if IsSuccessful(code) then
           if body.Some? && cb.onSuccess then [OnSuccess(body.value)]
           else Optional(cb.onError, OnError(EmptyBodyText))
         else Optional(cb.onError, OnError(ServerErrorPrefix + Decimal.IntToString(code)))
       case HttpException(code) =>
         Optional(cb.onError, OnError(HttpErrorPrefix + Decimal.IntToString(code)))
       case OtherException(message) =>
         Optional(cb.onError, OnError(ConnectionErrorPrefix + MessageText(message))))
    + Optional(cb.onComplete, OnComplete)
  }

  /** A call with a null `onSuccess` and a non-null `onError` is told the body is missing when it is not. */
  lemma AsWrittenMisreportsPresentBody<T>(code: int, d: T, cb: Callbacks)
    requires IsSuccessful(code) && !cb.onSuccess && cb.onError
    ensures OnError(EmptyBodyText) in FetchDataAsWritten(Response(code, Some(d)), cb)
    ensures Classify(Response(code, Some(d))) == Success(d)
    ensures OnError(EmptyBodyText) !in FetchData(Response(code, Some(d)), cb)
  {
    ErrorTextDecodes(EmptyBody);
  }

  /** Whenever `onSuccess` is given, or `onError` is not, the code behaves as intended; both callers are such. */
  lemma AsWrittenAgreesForCallers<T>(o: HttpOutcome<T>, cb: Callbacks)
    requires cb.onSuccess || !cb.onError
    ensures FetchDataAsWritten(o, cb) == FetchData(o, cb)
  {
  }
}

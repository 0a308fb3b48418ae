/** The LLM client: one logical call spends one unit of the day's request budget and
    then makes up to four HTTP attempts, sleeping 2, 4 and 8 seconds between them,
    retrying only failures it classifies as transient. */
module LlmClient {
  import opened Common

  const REQUEST_TIMEOUT_SECONDS: real := 60.0
  const RETRY_DELAYS: seq<real> := [2.0, 4.0, 8.0]
  const RETRYABLE_STATUS: set<int> := {408, 425, 429, 500, 502, 503, 504}
  const DEFAULT_DAILY_CAP := 30
  const CAP_NOT_INTEGER := "LLM_DAILY_CAP must be an integer"
  const CAP_NOT_POSITIVE := "LLM_DAILY_CAP must be a positive integer"
  const PARSE_FAILURE := "response parse/validation failure"

  /** The client's own errors: `LLMError` and the subclasses it raises. */
  datatype LlmKind = Base | Transient | Permanent | CapExceeded

  datatype LlmError = LlmError(kind: LlmKind, message: string)

  /** An exception's class, as far as the client tells classes apart. */
  datatype ExceptionClass =
    | HttpError(code: int)
    | TimeoutError
    | ConnectionError
    | UrlError
    | TypeError
    | ValueError
    | ClientError(kind: LlmKind)
    | OtherError(name: string)

  /** A raised exception and the text of `str(exc)`. */
  datatype Exception = Exception(cls: ExceptionClass, text: string)

  /** `exc.__class__.__name__` */
  function ClassName(cls: ExceptionClass): string {
    match cls
    case HttpError(_) => "HTTPError"
    case TimeoutError => "TimeoutError"
    case ConnectionError => "ConnectionError"
    case UrlError => "URLError"
    case TypeError => "TypeError"
    case ValueError => "ValueError"
    case ClientError(k) => (match k
                            case Base => "LLMError"
                            case Transient => "LLMTransientError"
                            case Permanent => "LLMPermanentError"
                            case CapExceeded => "LLMDailyCapExceeded")
    case OtherError(name) => name
  }

  /** `f"http status {code}"`, transient for a retryable code. */
  function StatusError(code: int): LlmError {
    LlmError(if code in RETRYABLE_STATUS then Transient else Permanent, "http status " + IntToString(code))
  }

  /** `_classify_error`: the client's own errors pass through; an HTTP error is
      transient for a retryable code; timeouts, connection and URL errors are
      transient; everything else is permanent. Its text is the stripped message, or
      the class name when that is blank. */
  function Classify(exc: Exception): (e: LlmError)
    ensures exc.cls.ClientError? ==> e == LlmError(exc.cls.kind, exc.text)
    ensures !exc.cls.ClientError? ==>
      (e.kind == Transient <==>
         (exc.cls.HttpError? && exc.cls.code in RETRYABLE_STATUS)
         || exc.cls == TimeoutError || exc.cls == ConnectionError || exc.cls == UrlError)
    ensures !exc.cls.ClientError? ==> e.kind == Transient || e.kind == Permanent
    ensures exc.cls.HttpError? ==> e.message == "http status " + IntToString(exc.cls.code)
  {
    var text := if IsBlank(exc.text) then ClassName(exc.cls) else Strip(exc.text);
    match exc.cls
    case ClientError(kind) => LlmError(kind, exc.text)
    case HttpError(code) => StatusError(code)
    case TimeoutError => LlmError(Transient, text)
    case ConnectionError => LlmError(Transient, text)
    case UrlError => LlmError(Transient, text)
    case _ => LlmError(Permanent, text)
  }

  /** `_parse_daily_cap`: a missing or blank cap is the default; otherwise it must be
      a positive integer. */
  function ParseDailyCap(raw: Option<string>): (r: Result<int>)
    ensures raw.None? || IsBlank(raw.value) ==> r == Ok(DEFAULT_DAILY_CAP)
    ensures r.Ok? ==> r.value > 0
    ensures raw.Some? && !IsBlank(raw.value) ==>
      match ParseInt(Strip(raw.value))
      case None => r == Err(CAP_NOT_INTEGER)
      case Some(n) => r == if n <= 0 then Err(CAP_NOT_POSITIVE) else Ok(n)
  {
    if raw.None? || IsBlank(raw.value) then Ok(DEFAULT_DAILY_CAP)
    else
      match ParseInt(Strip(raw.value))
      case None => Err(CAP_NOT_INTEGER)
      case Some(n) => if n <= 0 then Err(CAP_NOT_POSITIVE) else Ok(n)
  }

  /** The `llm_daily_usage` upsert as a value: the day's first request inserts a
      count of one; later ones add one only while the count is below the cap. */
  function Consumed(counts: map<string, int>, day: string, cap: int): (r: (bool, map<string, int>))
    ensures r.0 <==> day !in counts || counts[day] < cap
    ensures r.0 ==> r.1 == counts[day := if day in counts then counts[day] + 1 else 1]
    ensures !r.0 ==> r.1 == counts
  {
    if day !in counts then (true, counts[day := 1])
    else if counts[day] < cap then (true, counts[day := counts[day] + 1])
    else (false, counts)
  }

  /** The daily usage table, one request count per day key. */
  class DailyUsage {
    var counts: map<string, int>

    constructor (counts: map<string, int>)
      ensures this.counts == counts
    {
      this.counts := counts;
    }

    /** `_consume_daily_budget`: true exactly when the row count changed. */
    method Consume(day: string, cap: int) returns (consumed: bool)
      modifies this
      ensures (consumed, counts) == Consumed(old(counts), day, cap)
    {
      if day !in counts {
        counts := counts[day := 1];
        return true;
      }
      if counts[day] < cap {
        counts := counts[day := counts[day] + 1];
        return true;
      }
      return false;
    }
  }

  /** A response with its `status` attribute, `None` when it has none. */
  datatype Response = Response(status: Option<int>, body: Json)

  /** What a call of the requester or the parser did. */
  datatype Call<T> = Returned(value: T) | Raised(exc: Exception)

  /** The value `invoke_llm` returns: the response, or what the parser made of it. */
  datatype Answer = RawResponse(response: Response) | Parsed(value: Json)

  /** How one attempt ended. */
  datatype AttemptResult = Answered(answer: Answer) | Failed(error: LlmError)

  /** One attempt: a non-2xx status raises an error for that status; a parser's type
      or value error is a permanent parse failure; any other exception is classified. */
  function Attempt(request: Call<Response>, parser: Option<Response -> Call<Json>>): (a: AttemptResult)
    ensures request.Raised? ==> a == Failed(Classify(request.exc))
    ensures request.Returned? && request.value.status.Some? && !(200 <= request.value.status.value < 300) ==>
      a == Failed(StatusError(request.value.status.value))
    ensures a.Answered? && parser.None? ==> a.answer == RawResponse(request.value)
    ensures request.Returned? && parser.Some? && parser.value(request.value).Raised?
            && (parser.value(request.value).exc.cls == TypeError || parser.value(request.value).exc.cls == ValueError)
            && (request.value.status.None? || 200 <= request.value.status.value < 300)
            ==> a == Failed(LlmError(Permanent, PARSE_FAILURE))
  {
    match request
    case Raised(exc) => Failed(Classify(exc))
    case Returned(response) =>
      if response.status.Some? && !(200 <= response.status.value < 300) then Failed(StatusError(response.status.value))
      else if parser.None? then Answered(RawResponse(response))
      else
        match parser.value(response)
        case Returned(v) => Answered(Parsed(v))
        case Raised(exc) =>
          if exc.cls == TypeError || exc.cls == ValueError then Failed(LlmError(Permanent, PARSE_FAILURE))
          else Failed(Classify(exc))
  }

  /** The attempts from `attempt` on: the result, the sleeps taken and the number of
      requester calls. */
  datatype Attempts = Attempts(result: AttemptResult, sleeps: seq<real>, calls: nat)

  /** How each attempt would end, by attempt number. */
  function Outcomes(requester: nat -> Call<Response>, parser: Option<Response -> Call<Json>>): nat -> AttemptResult {
    (i: nat) => Attempt(requester(i), parser)
  }

  /** The retry loop over the attempts' outcomes: a transient failure with a retry
      left sleeps that retry's delay and goes on; anything else ends the loop. */
  function AttemptsFrom(attempt: nat, outcomes: nat -> AttemptResult): Attempts
    requires attempt <= |RETRY_DELAYS|
    decreases |RETRY_DELAYS| - attempt
  {
    var a := outcomes(attempt);
    if a.Failed? && a.error.kind == Transient && attempt < |RETRY_DELAYS| then
      var rest := AttemptsFrom(attempt + 1, outcomes);
      Attempts(rest.result, [RETRY_DELAYS[attempt]] + rest.sleeps, rest.calls + 1)
    else Attempts(a, [], 1)
  }

  /** `invoke_llm` as a value, over the day's usage counts: the cap is read first,
      then one unit of budget is spent, then the attempts run. */
  function Invoked(capRaw: Option<string>, counts: map<string, int>, today: string,
                   requester: nat -> Call<Response>, parser: Option<Response -> Call<Json>>): (Attempts, map<string, int>)
  {
    match ParseDailyCap(capRaw)
    case Err(e) => (Attempts(Failed(LlmError(Permanent, e)), [], 0), counts)
    case Ok(cap) =>
      var (consumed, after) := Consumed(counts, today, cap);
      if !consumed then
        (Attempts(Failed(LlmError(CapExceeded, "LLM daily cap reached: " + IntToString(cap) + " requests for " + today)), [], 0),
         after)
      else (AttemptsFrom(0, Outcomes(requester, parser)), after)
  }

  /** `invoke_llm`. The requester is given by attempt number, `today` is the day key
      in Korea Standard Time, and the sleeps are returned instead of slept. */
  method InvokeLlm(capRaw: Option<string>, usage: DailyUsage, today: string,
                   requester: nat -> Call<Response>, parser: Option<Response -> Call<Json>>)
    returns (result: AttemptResult, sleeps: seq<real>, calls: nat)
    modifies usage
    ensures (Attempts(result, sleeps, calls), usage.counts) == Invoked(capRaw, old(usage.counts), today, requester, parser)
  {
    var cap := ParseDailyCap(capRaw);
    if cap.Err? {
      return Failed(LlmError(Permanent, cap.error)), [], 0;
    }
    var consumed := usage.Consume(today, cap.value);
    if !consumed {
      return Failed(LlmError(CapExceeded, "LLM daily cap reached: " + IntToString(cap.value) + " requests for " + today)), [], 0;
    }
    var attempts := RunAttempts(requester, parser);
    return attempts.result, attempts.sleeps, attempts.calls;
  }

  /** The retry loop of `invoke_llm`. */
  method RunAttempts(requester: nat -> Call<Response>, parser: Option<Response -> Call<Json>>)
    returns (r: Attempts)
    ensures r == AttemptsFrom(0, Outcomes(requester, parser))
  {
    ghost var outcomes := Outcomes(requester, parser);
    var sleeps: seq<real> := [];
    var calls: nat := 0;
    for attempt := 0 to |RETRY_DELAYS| + 1
      invariant attempt == calls && attempt <= |RETRY_DELAYS|
      invariant var rest := AttemptsFrom(attempt, outcomes);
        AttemptsFrom(0, outcomes) == Attempts(rest.result, sleeps + rest.sleeps, calls + rest.calls)
    {
      var request := requester(attempt);
      calls := calls + 1;
      var a := Attempt(request, parser);
      assert a == outcomes(attempt);
      if a.Answered? {
        return Attempts(a, sleeps, calls);
      }
      if a.error.kind == Transient && attempt < |RETRY_DELAYS| {
        sleeps := sleeps + [RETRY_DELAYS[attempt]];
        continue;
      }
      return Attempts(a, sleeps, calls);
    }
    // every path of the last attempt returns
    assert false;
  }

  // ---------------------------------------------------------------------------
  // Properties

  /** A spent budget stops the call before any request: no requester call, no sleep,
      the daily-cap error, and the counts unchanged. */
  lemma CapReachedMakesNoCall(capRaw: Option<string>, counts: map<string, int>, today: string,
                              requester: nat -> Call<Response>, parser: Option<Response -> Call<Json>>)
    requires ParseDailyCap(capRaw).Ok?
    requires today in counts && counts[today] >= ParseDailyCap(capRaw).value
    ensures var (r, after) := Invoked(capRaw, counts, today, requester, parser);
      r.calls == 0 && r.sleeps == [] && r.result.Failed? && r.result.error.kind == CapExceeded && after == counts
  {
  }

  /** A cap that is not a positive integer fails the call before the budget is
      touched. */
  lemma BadCapTouchesNothing(capRaw: Option<string>, counts: map<string, int>, today: string,
                             requester: nat -> Call<Response>, parser: Option<Response -> Call<Json>>)
    requires ParseDailyCap(capRaw).Err?
    ensures var (r, after) := Invoked(capRaw, counts, today, requester, parser);
      r.calls == 0 && r.result == Failed(LlmError(Permanent, ParseDailyCap(capRaw).error)) && after == counts
  {
  }

  /** The attempts from `attempt` on: at most the remaining number of calls, one
      sleep between each two, the sleeps the next retry delays in order, every call
      but the last a transient failure, and the result that of the last call, which
      is a success, a failure that is not transient, or the last attempt's. */
  lemma {:induction false} AttemptsFromMeans(attempt: nat, outcomes: nat -> AttemptResult)
    requires attempt <= |RETRY_DELAYS|
    ensures var r := AttemptsFrom(attempt, outcomes);
      1 <= r.calls <= |RETRY_DELAYS| + 1 - attempt
      && |r.sleeps| == r.calls - 1
      && r.sleeps == RETRY_DELAYS[attempt..attempt + |r.sleeps|]
      && (forall i :: attempt <= i < attempt + r.calls - 1 ==> outcomes(i).Failed? && outcomes(i).error.kind == Transient)
      && r.result == outcomes(attempt + r.calls - 1)
      && (r.result.Failed? && r.result.error.kind == Transient ==> attempt + r.calls - 1 == |RETRY_DELAYS|)
    decreases |RETRY_DELAYS| - attempt
  {
    var a := outcomes(attempt);
    if a.Failed? && a.error.kind == Transient && attempt < |RETRY_DELAYS| {
      AttemptsFromMeans(attempt + 1, outcomes);
      var rest := AttemptsFrom(attempt + 1, outcomes);
      assert RETRY_DELAYS[attempt..attempt + 1 + |rest.sleeps|]
          == [RETRY_DELAYS[attempt]] + RETRY_DELAYS[attempt + 1..attempt + 1 + |rest.sleeps|];
    }
  }

  /** A call that gets past the budget makes at most four requests and sleeps only
      after transient failures, 2, 4 and 8 seconds in that order. */
  lemma AttemptBound(capRaw: Option<string>, counts: map<string, int>, today: string,
                     requester: nat -> Call<Response>, parser: Option<Response -> Call<Json>>)
    ensures var (r, _) := Invoked(capRaw, counts, today, requester, parser);
      r.calls <= 4 && r.sleeps == RETRY_DELAYS[..|r.sleeps|]
      && (r.calls > 0 ==>
            |r.sleeps| == r.calls - 1
            && forall i :: 0 <= i < r.calls - 1 ==>
                 Attempt(requester(i), parser).Failed? && Attempt(requester(i), parser).error.kind == Transient)
  {
    var outcomes := Outcomes(requester, parser);
    AttemptsFromMeans(0, outcomes);
    assert forall i :: outcomes(i) == Attempt(requester(i), parser);
  }

  /** A permanent failure is never retried: it ends the call at that attempt. */
  lemma PermanentStopsAtOnce(capRaw: Option<string>, counts: map<string, int>, today: string,
                             requester: nat -> Call<Response>, parser: Option<Response -> Call<Json>>, k: nat)
    requires var (r, _) := Invoked(capRaw, counts, today, requester, parser); r.calls > 0
    requires k <= |RETRY_DELAYS|
    requires forall i :: 0 <= i < k ==> Attempt(requester(i), parser).Failed? && Attempt(requester(i), parser).error.kind == Transient
    requires Attempt(requester(k), parser).Failed? && Attempt(requester(k), parser).error.kind != Transient
    ensures var (r, _) := Invoked(capRaw, counts, today, requester, parser);
      r.calls == k + 1 && r.result == Attempt(requester(k), parser)
  {
    var outcomes := Outcomes(requester, parser);
    AttemptsFromMeans(0, outcomes);
    assert forall i :: outcomes(i) == Attempt(requester(i), parser);
  }

  /** The budget never runs past the cap: starting at or below it, any number of
      consumptions leaves the day's count at or below it. */
  lemma {:induction false} BudgetStaysWithinCap(counts: map<string, int>, day: string, cap: int, n: nat)
    requires cap >= 1
    requires day in counts ==> counts[day] <= cap
    ensures var after := ConsumeTimes(counts, day, cap, n); day in after ==> after[day] <= cap
    decreases n
  {
    if n > 0 {
      BudgetStaysWithinCap(Consumed(counts, day, cap).1, day, cap, n - 1);
    }
  }

  /** `n` consumptions of the same day's budget. */
  function ConsumeTimes(counts: map<string, int>, day: string, cap: int, n: nat): map<string, int>
    decreases n
  {
    if n == 0 then counts else ConsumeTimes(Consumed(counts, day, cap).1, day, cap, n - 1)
  }

  /** A new day starts with a fresh budget, whatever the earlier days used. */
  lemma NewDayConsumes(counts: map<string, int>, day: string, cap: int)
    requires day !in counts
    ensures Consumed(counts, day, cap) == (true, counts[day := 1])
  {
  }
}

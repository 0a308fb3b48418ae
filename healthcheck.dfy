/** The merge-close daemon's healthcheck: it reads the daemon's heartbeat, keeps a
    count of consecutive failed polls in a state file of its own, and grades the
    daemon unhealthy (safe mode, stale or unreadable heartbeat), degraded (the poll
    failure budget is used up) or healthy; only unhealthy fails the check. */
module Healthcheck {
  import opened Common

  const NOT_AN_OBJECT := "JSON payload must be an object"
  const BAD_ISO := "Invalid isoformat string"
  const LAST_UPDATED := "last_heartbeat_updated_at"
  const FAILURES := "consecutive_poll_failures"
  const DEFAULT_MAX_AGE := 120
  const DEFAULT_BUDGET := 3

  datatype Status = Healthy | Degraded | Unhealthy

  /** The healthcheck's report; `ageSeconds` is absent when no heartbeat was read. */
  datatype Health = Health(status: Status, reason: string, exitCode: int, ageSeconds: Option<int>, failures: int)

  function MissingHeartbeat(): Health { Health(Unhealthy, "missing-heartbeat", 1, None, 0) }
  function InvalidHeartbeat(): Health { Health(Unhealthy, "invalid-heartbeat", 1, None, 0) }

  function Max(a: int, b: int): int { if a >= b then a else b }

  /** The grading cascade: safe mode, then a heartbeat strictly older than `maxAge`,
      then a failure count that reached the budget (at least one), else healthy. */
  function Verdict(safeMode: bool, age: int, failures: int, maxAge: int, budget: int): (h: Health)
    ensures h.ageSeconds == Some(age) && h.failures == failures
    ensures h.status == Unhealthy <==> safeMode || age > maxAge
    ensures h.status == Degraded <==> !safeMode && age <= maxAge && failures >= Max(1, budget)
    ensures h.exitCode == (if h.status == Unhealthy then 1 else 0)
    ensures safeMode ==> h.reason == "safe-mode"
    ensures !safeMode && age > maxAge ==> h.reason == "stale-heartbeat"
  {
    if safeMode then Health(Unhealthy, "safe-mode", 1, Some(age), failures)
    else if age > maxAge then Health(Unhealthy, "stale-heartbeat", 1, Some(age), failures)
    else if failures >= Max(1, budget) then Health(Degraded, "poll-failure-budget-exhausted", 0, Some(age), failures)
    else Health(Healthy, "ok", 0, Some(age), failures)
  }

  /** `_coerce_int`: an `int`, and so also a `bool`, is kept; anything else is the default. */
  function CoerceInt(v: Json, default: int): (r: int)
    ensures v.JInt? ==> r == v.n
    ensures v.JBool? ==> r == (if v.b then 1 else 0)
    ensures !v.JInt? && !v.JBool? ==> r == default
  {
    match v
    case JInt(n) => n
    case JBool(b) => if b then 1 else 0
    case _ => default
  }

  /** `_load_json`: `content` is what `json.loads` makes of the file's text, or the
      decode error it raises; the file must hold an object. */
  function LoadObject(content: Result<Json>): Result<map<string, Json>> {
    if content.Err? then Err(content.error)
    else if content.value.JObj? then Ok(content.value.fields) else Err(NOT_AN_OBJECT)
  }

  /** `_load_state`: a missing state file reads as an empty object. */
  function LoadState(file: Option<Result<Json>>): Result<map<string, Json>> {
    if file.None? then Ok(map[]) else LoadObject(file.value)
  }

  /** The clock: `now_iso` parsed when given, else the current time. */
  function NowInstant(nowIso: Option<string>, clock: int, parse: string -> Option<int>): Result<int> {
    if nowIso.None? then Ok(clock)
    else if parse(nowIso.value).None? then Err(BAD_ISO)
    else Ok(parse(nowIso.value).value)
  }

  /** The stored state after a heartbeat that differs from the last one seen. */
  function SavedState(updatedAt: string, failures: int): map<string, Json> {
    map[LAST_UPDATED := JStr(updatedAt), FAILURES := JInt(failures)]
  }

  /** The report and the state written, if any. */
  datatype Evaluation = Evaluation(result: Result<Health>, saved: Option<map<string, Json>>)

  /** `evaluate_health` as a value: `heartbeat` and `state` are the files' decoded
      contents as `json.loads` decodes them (`None` for a missing file), `parse` reads an ISO-8601 text as an
      instant in seconds. */
  function Evaluate(nowIso: Option<string>, clock: int, parse: string -> Option<int>,
                    heartbeat: Option<Result<Json>>, state: Option<Result<Json>>, maxAge: int, budget: int): Evaluation
  {
    var now := NowInstant(nowIso, clock, parse);
    if now.Err? then Evaluation(Err(now.error), None)
    else if heartbeat.None? then Evaluation(Ok(MissingHeartbeat()), None)
    else if LoadObject(heartbeat.value).Err? then Evaluation(Err(LoadObject(heartbeat.value).error), None)
    else
      var hb := LoadObject(heartbeat.value).value;
      var updatedAt := Get(hb, "updated_at");
      var pollOk := Get(hb, "poll_ok");
      var safeMode := if "safe_mode" in hb then hb["safe_mode"] else JBool(false);
      if !updatedAt.JStr? || !pollOk.JBool? then Evaluation(Ok(InvalidHeartbeat()), None)
      else if parse(updatedAt.s).None? then Evaluation(Err(BAD_ISO), None)
      else
        var age := now.value - parse(updatedAt.s).value;
        var st := LoadState(state);
        if st.Err? then Evaluation(Err(st.error), None)
        else
          var stored := CoerceInt(Get(st.value, FAILURES), 0);
          if Get(st.value, LAST_UPDATED) != JStr(updatedAt.s) then
            var failures := if pollOk.b then 0 else stored + 1;
            Evaluation(Ok(Verdict(Truthy(safeMode), age, failures, maxAge, budget)), Some(SavedState(updatedAt.s, failures)))
          else
            Evaluation(Ok(Verdict(Truthy(safeMode), age, stored, maxAge, budget)), None)
  }

  /** The failure counter moves only on a heartbeat not seen before: it restarts at
      zero after a good poll and grows by one after a failed one, and the new count is
      stored beside that heartbeat's `updated_at`. A missing or malformed heartbeat is
      unhealthy with no failures counted, a heartbeat file that does not decode raises
      its decode error, a state file that does not decode leaves no graded report, and
      the check fails exactly when the daemon is unhealthy. */
  lemma EvaluateMeans(nowIso: Option<string>, clock: int, parse: string -> Option<int>,
                      heartbeat: Option<Result<Json>>, state: Option<Result<Json>>, maxAge: int, budget: int)
    requires NowInstant(nowIso, clock, parse).Ok?
    ensures var e := Evaluate(nowIso, clock, parse, heartbeat, state, maxAge, budget);
      (heartbeat.None? ==> e == Evaluation(Ok(MissingHeartbeat()), None))
      && (heartbeat.Some? && heartbeat.value.Err? ==> e == Evaluation(Err(heartbeat.value.error), None))
      && (state.Some? && state.value.Err? && e.result.Ok? ==> e.result.value.ageSeconds.None?)
      && (heartbeat.Some? && heartbeat.value.Ok? && heartbeat.value.value.JObj?
          && Get(heartbeat.value.value.fields, "updated_at").JStr? && Get(heartbeat.value.value.fields, "poll_ok").JBool?
          && parse(Get(heartbeat.value.value.fields, "updated_at").s).Some?
          && state.Some? && state.value.Err?
          ==> e == Evaluation(Err(state.value.error), None))
      && (e.result.Ok? ==> e.result.value.exitCode == (if e.result.value.status == Unhealthy then 1 else 0))
      && (heartbeat.Some? && heartbeat.value.Ok? && heartbeat.value.value.JObj?
          && !(Get(heartbeat.value.value.fields, "updated_at").JStr? && Get(heartbeat.value.value.fields, "poll_ok").JBool?)
          ==> e == Evaluation(Ok(InvalidHeartbeat()), None))
      && (e.saved.Some? ==>
            var hb := heartbeat.value.value.fields;
            var st := LoadState(state).value;
            var stored := CoerceInt(Get(st, FAILURES), 0);
            Get(st, LAST_UPDATED) != Get(hb, "updated_at")
            && e.result.value.failures == (if Get(hb, "poll_ok").b then 0 else stored + 1)
            && e.saved.value[LAST_UPDATED] == Get(hb, "updated_at")
            && e.saved.value[FAILURES] == JInt(e.result.value.failures))
      && (e.saved.None? && e.result.Ok? && e.result.value.ageSeconds.Some? ==>
            var st := LoadState(state).value;
            Get(st, LAST_UPDATED) == Get(heartbeat.value.value.fields, "updated_at")
            && e.result.value.failures == CoerceInt(Get(st, FAILURES), 0))
  {
  }

  /** Checking the same heartbeat again, against the state the first check left,
      changes nothing: no write, and the same report. */
  lemma RecheckIsStable(nowIso: Option<string>, clock: int, parse: string -> Option<int>,
                        heartbeat: Option<Result<Json>>, state: Option<Result<Json>>, maxAge: int, budget: int)
    ensures var e := Evaluate(nowIso, clock, parse, heartbeat, state, maxAge, budget);
      var after := if e.saved.Some? then Some(Ok(JObj(e.saved.value))) else state;
      var again := Evaluate(nowIso, clock, parse, heartbeat, after, maxAge, budget);
      again.saved.None? && again.result == e.result
  {
    var e := Evaluate(nowIso, clock, parse, heartbeat, state, maxAge, budget);
    if e.saved.Some? {
      var s := e.saved.value;
      assert LoadState(Some(Ok(JObj(s)))) == Ok(s);
      assert Get(s, LAST_UPDATED) == s[LAST_UPDATED];
      assert Get(s, FAILURES) == s[FAILURES];
    }
  }

  /** The healthcheck's state file, as `json.loads` reads it. */
  class StateFile {
    var content: Option<Result<Json>>

    constructor (content: Option<Result<Json>>)
      ensures this.content == content
    {
      this.content := content;
    }
  }

  /** `evaluate_health` */
  method EvaluateHealth(nowIso: Option<string>, clock: int, parse: string -> Option<int>,
                        heartbeat: Option<Result<Json>>, stateFile: StateFile, maxAge: int, budget: int)
    returns (r: Result<Health>)
    modifies stateFile
    ensures var e := Evaluate(nowIso, clock, parse, heartbeat, old(stateFile.content), maxAge, budget);
      r == e.result && stateFile.content == (if e.saved.Some? then Some(Ok(JObj(e.saved.value))) else old(stateFile.content))
  {
    var now := NowInstant(nowIso, clock, parse);
    if now.Err? {
      return Err(now.error);
    }
    if heartbeat.None? {
      return Ok(MissingHeartbeat());
    }
    var loaded := LoadObject(heartbeat.value);
    if loaded.Err? {
      return Err(loaded.error);
    }
    var hb := loaded.value;
    var updatedAt := Get(hb, "updated_at");
    var pollOk := Get(hb, "poll_ok");
    var safeMode := if "safe_mode" in hb then hb["safe_mode"] else JBool(false);
    if !updatedAt.JStr? || !pollOk.JBool? {
      return Ok(InvalidHeartbeat());
    }
    var heartbeatAt := parse(updatedAt.s);
    if heartbeatAt.None? {
      return Err(BAD_ISO);
    }
    var age := now.value - heartbeatAt.value;
    var state := LoadState(stateFile.content);
    if state.Err? {
      return Err(state.error);
    }
    var failures := CoerceInt(Get(state.value, FAILURES), 0);
    if Get(state.value, LAST_UPDATED) != updatedAt {
      if pollOk.b {
        failures := 0;
      } else {
        failures := failures + 1;
      }
      stateFile.content := Some(Ok(JObj(SavedState(updatedAt.s, failures))));
    }
    r := Ok(Verdict(Truthy(safeMode), age, failures, maxAge, budget));
  }
}

/** The merge-close daemon: the checkpoint it loads and saves, the fetch with bounded
    retry, and one poll cycle over the fetched records, which dispatches each new merge
    to the closer at most once per replay key. */
module MergeCloseDaemon {
  import opened Common
  import opened MergeCloser
  import opened CloseOnMerge
  import opened MergeCloseRecords
  import MergeCloseLock

  const SCHEMA_VERSION := 1
  const DEFAULT_WATERMARK := "1970-01-01T00:00:00Z"
  const OPERATOR_ACTION := "repair checkpoint file and restart daemon; use operator fallback for missed merge events"

  /** ISO-8601 UTC parsing and formatting over instants in whole seconds; a string
      that does not parse yields the message of the `ValueError`. */
  datatype Clock = Clock(parse: string -> Result<int>, format: int -> string)

  /** The clock reads back what it formats. */
  ghost predicate FormatParses(c: Clock) {
    forall t :: c.parse(c.format(t)) == Ok(t)
  }

  /** `_subtract_lookback`: the instant `lookback` seconds (at least 0) earlier. */
  function SubtractLookback(value: string, lookback: int, c: Clock): Result<string> {
    match c.parse(value)
    case Err(e) => Err(e)
    case Ok(t) => Ok(c.format(t - (if lookback > 0 then lookback else 0)))
  }

  /** The fetch starts no later than the watermark, and exactly `lookback` seconds
      before it. */
  lemma SinceIsBeforeWatermark(value: string, lookback: int, c: Clock)
    requires FormatParses(c) && c.parse(value).Ok?
    ensures var s := SubtractLookback(value, lookback, c);
      s.Ok? && c.parse(s.value).Ok?
      && c.parse(s.value).value == c.parse(value).value - (if lookback > 0 then lookback else 0)
      && c.parse(s.value).value <= c.parse(value).value
  {
    var t := c.parse(value).value;
    assert c.parse(c.format(t - (if lookback > 0 then lookback else 0))) == Ok(t - (if lookback > 0 then lookback else 0));
  }

  // ---------------------------------------------------------------------------
  // Checkpoint

  /** The checkpoint file: absent, unreadable or not JSON (with the error message), or
      a stored JSON document. */
  datatype CheckpointFile = NoFile | Unreadable(error: string) | Stored(doc: Json)

  /** What loading leaves: the processed entries, the watermark and the error that
      puts the daemon into safe mode, if any. */
  datatype Loaded = Loaded(processed: map<string, map<string, Json>>, watermark: string, error: Option<string>)

  /** The processed entries whose value is an object. */
  function LoadedEntries(pm: map<string, Json>): map<string, map<string, Json>> {
    map k | k in pm && pm[k].JObj? :: pm[k].fields
  }

  /** `payload.get("schema_version") != 1` fails for `1` and for `True`. */
  predicate SchemaAccepted(v: Json) { v == JInt(SCHEMA_VERSION) || v == JBool(true) }

  const NOT_AN_OBJECT := "checkpoint payload must be an object"
  const UNSUPPORTED_SCHEMA := "unsupported checkpoint schema"
  const PROCESSED_NOT_OBJECT := "checkpoint processed must be an object"
  const WINDOW_NOT_OBJECT := "checkpoint window must be an object"
  const BLANK_WATERMARK := "checkpoint watermark must be a non-empty string"

  /** `_load_checkpoint` from the state it starts in: each check that fails raises,
      leaving what was assigned before it. */
  function LoadSpec(file: CheckpointFile, c: Clock, processed0: map<string, map<string, Json>>, watermark0: string): Loaded {
    match file
    case NoFile => Loaded(map[], DEFAULT_WATERMARK, None)
    case Unreadable(e) => Loaded(processed0, watermark0, Some(e))
    case Stored(doc) =>
      if !doc.JObj? then Loaded(processed0, watermark0, Some(NOT_AN_OBJECT))
      else if !SchemaAccepted(Get(doc.fields, "schema_version")) then Loaded(processed0, watermark0, Some(UNSUPPORTED_SCHEMA))
      else
        var pv := Get(doc.fields, "processed");
        if !pv.JObj? then Loaded(processed0, watermark0, Some(PROCESSED_NOT_OBJECT))
        else
          var loaded := LoadedEntries(pv.fields);
          var window := Get(doc.fields, "window");
          if window.JNull? then Loaded(loaded, DEFAULT_WATERMARK, None)
          else if !window.JObj? then Loaded(loaded, watermark0, Some(WINDOW_NOT_OBJECT))
          else
            var wm := Get(window.fields, "watermark_merged_at");
            if !IsNonBlankStr(wm) then Loaded(loaded, watermark0, Some(BLANK_WATERMARK))
            else
              match c.parse(wm.s)
              case Err(e) => Loaded(loaded, watermark0, Some(e))
              case Ok(t) => Loaded(loaded, c.format(t), None)
  }

  /** The document `_save_checkpoint` writes. */
  function SaveDoc(processed: map<string, map<string, Json>>, watermark: string, safeMode: bool, reason: string): Json {
    JObj(map[
      "schema_version" := JInt(SCHEMA_VERSION),
      "safe_mode" := JBool(safeMode),
      "safe_mode_reason" := JStr(reason),
      "window" := JObj(map["watermark_merged_at" := JStr(watermark)]),
      "processed" := JObj(map k | k in processed :: JObj(processed[k]))])
  }

  /** A saved checkpoint loads back: the same processed entries and the same
      watermark when it is one the clock formatted, and no safe mode, whatever the
      state loading starts from. */
  lemma SaveThenLoad(processed: map<string, map<string, Json>>, watermark: string, safeMode: bool, reason: string,
                     c: Clock, processed0: map<string, map<string, Json>>, watermark0: string)
    requires !IsBlank(watermark) && c.parse(watermark).Ok? && c.format(c.parse(watermark).value) == watermark
    ensures LoadSpec(Stored(SaveDoc(processed, watermark, safeMode, reason)), c, processed0, watermark0)
            == Loaded(processed, watermark, None)
  {
    var pm := map k | k in processed :: JObj(processed[k]);
    assert LoadedEntries(pm) == processed;
  }

  /** The saved safe-mode flag and reason are never read back: a checkpoint saved in
      safe mode loads exactly as one saved outside it. */
  lemma SafeModeNotPersisted(processed: map<string, map<string, Json>>, watermark: string, reason: string,
                             c: Clock, processed0: map<string, map<string, Json>>, watermark0: string)
    ensures LoadSpec(Stored(SaveDoc(processed, watermark, true, reason)), c, processed0, watermark0)
            == LoadSpec(Stored(SaveDoc(processed, watermark, false, "")), c, processed0, watermark0)
  {
  }

  /** A document loads without error exactly when it is an object with an accepted
      schema, an object `processed`, and either no window or an object window whose
      watermark is a non-blank string the clock parses. */
  lemma LoadErrorIff(doc: Json, c: Clock, processed0: map<string, map<string, Json>>, watermark0: string)
    ensures var l := LoadSpec(Stored(doc), c, processed0, watermark0);
      l.error.None? <==>
        doc.JObj? && SchemaAccepted(Get(doc.fields, "schema_version")) && Get(doc.fields, "processed").JObj?
        && (var w := Get(doc.fields, "window");
            w.JNull? || (w.JObj? && IsNonBlankStr(Get(w.fields, "watermark_merged_at"))
                         && c.parse(Get(w.fields, "watermark_merged_at").s).Ok?))
    ensures var l := LoadSpec(Stored(doc), c, processed0, watermark0);
      l.error.None? ==> l.processed == LoadedEntries(Get(doc.fields, "processed").fields)
  {
  }

  // ---------------------------------------------------------------------------
  // Heartbeat and cycle outcome

  datatype Heartbeat = Heartbeat(updatedAt: string, safeMode: bool, safeModeReason: string,
                                 operatorAction: string, pollOk: bool)

  /** `_write_heartbeat`: the operator is told what to do exactly in safe mode. */
  function HeartbeatFor(safeMode: bool, reason: string, now: string, pollOk: bool): (h: Heartbeat)
    ensures h.operatorAction != [] <==> safeMode
    ensures h.safeMode == safeMode && h.safeModeReason == reason && h.pollOk == pollOk && h.updatedAt == now
  {
    Heartbeat(now, safeMode, reason, if safeMode then OPERATOR_ACTION else "", pollOk)
  }

  datatype PollCycleOutcome = PollCycleOutcome(safeMode: bool, pollOk: bool, dispatched: nat, skipped: nat, retries: nat)

  // ---------------------------------------------------------------------------
  // Fetch with bounded retry

  /** The upstream fetch: given `since` and the number of fetches made before, the
      records, or None for a `GhCommandError`. */
  type Fetcher = (string, nat) -> Option<seq<map<string, Json>>>

  /** `retry_attempts`, clamped to at least one. */
  type Attempts = n: nat | 1 <= n witness 1

  datatype Fetched = Fetched(records: seq<map<string, Json>>, retries: nat, ok: bool)

  function Pow2(n: nat): nat {
    if n == 0 then 1 else 2 * Pow2(n - 1)
  }

  /** The sleep after failed attempt `i + 1`: `base * 2^i` seconds. */
  function Delay(base: real, i: nat): real {
    base * Pow2(i) as real
  }

  /** The sleeps after the first `n` failed attempts. */
  function Delays(base: real, n: nat): (r: seq<real>)
    ensures |r| == n
  {
    if n == 0 then [] else Delays(base, n - 1) + [Delay(base, n - 1)]
  }

  lemma {:induction false} DelayIs(base: real, n: nat, i: nat)
    requires i < n
    ensures Delays(base, n)[i] == base * Pow2(i) as real
  {
    if i < n - 1 {
      DelayIs(base, n - 1, i);
    }
  }

  function Repeat(s: string, n: nat): (r: seq<string>)
    ensures |r| == n && forall i :: 0 <= i < n ==> r[i] == s
  {
    if n == 0 then [] else Repeat(s, n - 1) + [s]
  }

  /** Attempts `a` to `n - 1` of `_fetch_with_retry`, the earlier ones having failed. */
  function FetchFrom(fetch: Fetcher, since: string, base: nat, a: nat, n: nat): Fetched
    requires a < n
    decreases n - a
  {
    match fetch(since, base + a)
    case Some(records) => Fetched(records, a, true)
    case None => if a + 1 == n then Fetched([], a, false) else FetchFrom(fetch, since, base, a + 1, n)
  }

  /** At most `n` attempts are made; success returns the records of the first fetch
      that answered, after `retries` failures; exhaustion returns nothing after every
      attempt failed. */
  lemma {:induction false} FetchFromMeans(fetch: Fetcher, since: string, base: nat, a: nat, n: nat)
    requires a < n
    ensures var f := FetchFrom(fetch, since, base, a, n);
      a <= f.retries < n
      && (forall j :: base + a <= j < base + f.retries ==> fetch(since, j).None?)
      && (f.ok ==> fetch(since, base + f.retries) == Some(f.records))
      && (!f.ok ==> f.retries == n - 1 && fetch(since, base + f.retries).None? && f.records == [])
    decreases n - a
  {
    if fetch(since, base + a).None? && a + 1 < n {
      FetchFromMeans(fetch, since, base, a + 1, n);
    }
  }

  // ---------------------------------------------------------------------------
  // One poll cycle as a function

  /** The `apply_fn` the daemon is built with, on the tracker state it sees: what it
      writes, and what it returns or raises. */
  type Closer = (map<string, Json>, Payload) -> Outcome

  /** What a cycle reads besides the daemon state: the clock, the one reading of
      `now_fn` that stamps its entries and the heartbeat, and the closer. */
  datatype Env = Env(clock: Clock, now: string, closer: Closer)

  /** The closer is `apply_merge_close` with the given decoders. */
  ghost predicate IsApplyMergeClose(closer: Closer, d: Decoders) {
    forall issues, p :: closer(issues, p) == ApplySpec(issues, p, d)
  }

  /** A closer that never closes an issue twice through the log. */
  ghost predicate KeepsAtMostOnce(closer: Closer) {
    forall issues, p, log :: AtMostOnceClosed(issues, log) ==>
      AtMostOnceClosed(ApplyAll(issues, closer(issues, p).writes), log + closer(issues, p).writes)
  }

  /** `apply_merge_close` is such a closer. */
  lemma ApplyMergeCloseKeepsAtMostOnce(closer: Closer, d: Decoders)
    requires IsApplyMergeClose(closer, d)
    ensures KeepsAtMostOnce(closer)
  {
    forall issues, p, log | AtMostOnceClosed(issues, log)
      ensures AtMostOnceClosed(ApplyAll(issues, closer(issues, p).writes), log + closer(issues, p).writes)
    {
      ApplyKeepsAtMostOnce(issues, log, p, d);
    }
  }

  /** The closer is `apply_merge_close` with the given decoders against a tracker whose
      writes may raise: each call makes its writes in full, or the ones before the
      write that raised and then raises. */
  ghost predicate IsFallibleApplyMergeClose(closer: Closer, d: Decoders) {
    forall issues, p :: CutShort(closer(issues, p), ApplySpec(issues, p, d))
  }

  /** Such a closer, too, never closes an issue twice through the log. */
  lemma FallibleApplyMergeCloseKeepsAtMostOnce(closer: Closer, d: Decoders)
    requires IsFallibleApplyMergeClose(closer, d)
    ensures KeepsAtMostOnce(closer)
  {
    forall issues, p, log | AtMostOnceClosed(issues, log)
      ensures AtMostOnceClosed(ApplyAll(issues, closer(issues, p).writes), log + closer(issues, p).writes)
    {
      CutShortKeepsAtMostOnce(issues, log, p, d, closer(issues, p));
    }
  }

  /** The state the per-record loop carries; an error is an exception that escaped it. */
  datatype CycleState = CycleState(processed: map<string, map<string, Json>>, maxSeen: string,
                                   dispatched: nat, skipped: nat, issues: map<string, Json>, error: Option<string>)

  /** One call of the closer: the replay key it was made for, its payload, and what it returned. */
  datatype Call = Call(key: string, payload: Payload, result: Result<CloseResult>)

  /** What one record adds to the tracker log and to the calls of the closer. */
  datatype StepEffect = StepEffect(writes: seq<Write>, calls: seq<Call>)

  /** A result that marks the record processed: any answer except the
      `close allowed only from needs_review` rejection. */
  predicate Accepted(res: Result<CloseResult>) {
    res.Ok? && !(!res.value.applied && res.value.reason == REASON_NOT_NEEDS_REVIEW)
  }

  /** The max-seen merge time after a record: a later string `mergedAt` replaces it
      (formatted canonically); either time failing to parse escapes. */
  function AdvanceMax(maxSeen: string, mergedAt: Json, c: Clock): Result<string> {
    if !mergedAt.JStr? then Ok(maxSeen)
    else
      match c.parse(mergedAt.s)
      case Err(e) => Err(e)
      case Ok(t) =>
        match c.parse(maxSeen)
        case Err(e) => Err(e)
        case Ok(b) => Ok(if t > b then c.format(t) else maxSeen)
  }

  /** The entry stored under a replay key. */
  function ProcessedEntry(record: map<string, Json>, p: Payload, key: string, now: string): map<string, Json> {
    map["pr_number" := Get(record, "number"), "merged_at" := JStr(p.mergedAt), "pr_url" := JStr(p.prUrl),
        "issue_id" := JStr(p.issueId), "merge_sha" := JStr(p.mergeSha), "replay_key" := JStr(key),
        "processed_at" := JStr(now)]
  }

  function Skip(c: CycleState): CycleState {
    c.(skipped := c.skipped + 1)
  }

  /** The payload `preview_from_event` builds from the record's event, if any. */
  function RecordPayload(record: map<string, Json>): Option<Payload> {
    match RecordToEvent(record)
    case None => None
    case Some(event) => PreviewFromEvent(event, Daemon).payload
  }

  /** The loop body of `poll_once` for one record. */
  function RecordStep(c: CycleState, record: map<string, Json>, env: Env): (CycleState, StepEffect) {
    match AdvanceMax(c.maxSeen, Get(record, "mergedAt"), env.clock)
    case Err(e) => (c.(error := Some(e)), StepEffect([], []))
    case Ok(maxSeen) => PayloadStep(c.(maxSeen := maxSeen), record, env)
  }

  /** After the max-seen update: skip a record without a payload, escape when the
      replay key cannot be formed, skip a key already processed, else dispatch. */
  function PayloadStep(c: CycleState, record: map<string, Json>, env: Env): (CycleState, StepEffect) {
    match RecordPayload(record)
    case None => (Skip(c), StepEffect([], []))
    case Some(p) =>
      match ReplayIdentityKey(p.prUrl, Get(record, "number"), p.mergeSha)
      case Err(e) => (c.(error := Some(e)), StepEffect([], []))
      case Ok(key) =>
        if key in c.processed then (Skip(c), StepEffect([], []))
        else CallStep(c, record, p, key, env)
  }

  /** One call of the closer: an exception or the needs_review rejection is a skip;
      any other answer records the key. The writes stay either way. */
  function CallStep(c: CycleState, record: map<string, Json>, p: Payload, key: string, env: Env): (CycleState, StepEffect) {
    var o := env.closer(c.issues, p);
    var c2 := c.(issues := ApplyAll(c.issues, o.writes));
    var effect := StepEffect(o.writes, [Call(key, p, o.result)]);
    if !Accepted(o.result) then (Skip(c2), effect)
    else (c2.(processed := c2.processed[key := ProcessedEntry(record, p, key, env.now)],
              dispatched := c2.dispatched + 1), effect)
  }

  /** The records processed so far, the writes made and the calls of the closer. */
  datatype Cycle = Cycle(state: CycleState, writes: seq<Write>, calls: seq<Call>)

  /** A loop body: the state after one record and what that record added. */
  type Step = (CycleState, map<string, Json>) -> (CycleState, StepEffect)

  /** A loop over `records` that stops at the first escaping error. */
  function Fold(step: Step, c0: CycleState, records: seq<map<string, Json>>): Cycle
    decreases |records|
  {
    if records == [] then Cycle(c0, [], [])
    else
      var prior := Fold(step, c0, records[..|records| - 1]);
      if prior.state.error.Some? then prior
      else
        var (s, e) := step(prior.state, records[|records| - 1]);
        Cycle(s, prior.writes + e.writes, prior.calls + e.calls)
  }

  /** The loop body of `poll_once` as a step. */
  function RecordSteps(env: Env): Step {
    (c, r) => RecordStep(c, r, env)
  }

  /** The per-record loop of `poll_once`. */
  function CycleSpec(c0: CycleState, records: seq<map<string, Json>>, env: Env): Cycle {
    Fold(RecordSteps(env), c0, records)
  }

  // ---------------------------------------------------------------------------
  // Properties of one record step

  /** The facts of a step that the cycle lemmas use: it keeps every processed entry,
      calls the closer at most once and only for a key not yet processed, adds at most
      that key and adds it exactly when the call was accepted, counts the record once,
      and writes what the closer wrote. */
  ghost predicate StepOk(c: CycleState, s: CycleState, e: StepEffect, closer: Closer) {
    (forall k :: k in c.processed ==> k in s.processed && s.processed[k] == c.processed[k])
    && |e.calls| <= 1
    && (forall i :: 0 <= i < |e.calls| ==> e.calls[i].key !in c.processed)
    && (forall k :: k in s.processed && k !in c.processed ==>
          |e.calls| == 1 && e.calls[0].key == k && Accepted(e.calls[0].result))
    && (|e.calls| == 1 && Accepted(e.calls[0].result) ==> e.calls[0].key in s.processed)
    && (s.error.None? ==> s.dispatched + s.skipped == c.dispatched + c.skipped + 1)
    && (e.calls == [] ==> e.writes == [] && s.issues == c.issues)
    && (|e.calls| == 1 ==>
          e.writes == closer(c.issues, e.calls[0].payload).writes
          && s.issues == ApplyAll(c.issues, e.writes)
          && e.calls[0].result == closer(c.issues, e.calls[0].payload).result)
  }

  ghost predicate StepsOk(step: Step, closer: Closer) {
    forall c, r :: StepOk(c, step(c, r).0, step(c, r).1, closer)
  }

  /** A step that did not escape moved the max-seen time as `AdvanceMax` does. */
  ghost predicate StepsAdvance(step: Step, clock: Clock) {
    forall c, r :: step(c, r).0.error.None? ==>
      AdvanceMax(c.maxSeen, Get(r, "mergedAt"), clock).Ok?
      && step(c, r).0.maxSeen == AdvanceMax(c.maxSeen, Get(r, "mergedAt"), clock).value
  }

  lemma CallStepOk(c: CycleState, record: map<string, Json>, p: Payload, key: string, env: Env)
    requires key !in c.processed
    ensures var (s, e) := CallStep(c, record, p, key, env); StepOk(c, s, e, env.closer)
  {
  }

  lemma PayloadStepOk(c: CycleState, record: map<string, Json>, env: Env)
    ensures var (s, e) := PayloadStep(c, record, env); StepOk(c, s, e, env.closer) && s.maxSeen == c.maxSeen
  {
    match RecordPayload(record)
    case None =>
    case Some(p) =>
      match ReplayIdentityKey(p.prUrl, Get(record, "number"), p.mergeSha)
      case Err(_) =>
      case Ok(key) =>
        if key !in c.processed {
          CallStepOk(c, record, p, key, env);
        }
  }

  /** A record step has the facts of `StepOk` and moves the max-seen time by `AdvanceMax`. */
  lemma StepFacts(c: CycleState, record: map<string, Json>, env: Env)
    ensures var (s, e) := RecordStep(c, record, env); StepOk(c, s, e, env.closer)
    ensures var (s, e) := RecordStep(c, record, env);
      var a := AdvanceMax(c.maxSeen, Get(record, "mergedAt"), env.clock);
      s.error.None? ==> a.Ok? && s.maxSeen == a.value
  {
    match AdvanceMax(c.maxSeen, Get(record, "mergedAt"), env.clock)
    case Err(_) =>
    case Ok(m) => PayloadStepOk(c.(maxSeen := m), record, env);
  }

  lemma RecordStepsOk(env: Env)
    ensures StepsOk(RecordSteps(env), env.closer)
    ensures StepsAdvance(RecordSteps(env), env.clock)
  {
    forall c, r {
      StepFacts(c, r, env);
    }
  }

  // ---------------------------------------------------------------------------
  // Properties of a loop of such steps

  lemma {:induction false} FoldProcessedGrows(step: Step, closer: Closer, c0: CycleState, records: seq<map<string, Json>>)
    requires StepsOk(step, closer)
    ensures var s := Fold(step, c0, records).state;
      forall k :: k in c0.processed ==> k in s.processed && s.processed[k] == c0.processed[k]
    decreases |records|
  {
    if records != [] {
      var prior := Fold(step, c0, records[..|records| - 1]);
      FoldProcessedGrows(step, closer, c0, records[..|records| - 1]);
      assert StepOk(prior.state, step(prior.state, records[|records| - 1]).0, step(prior.state, records[|records| - 1]).1, closer);
    }
  }

  lemma {:induction false} FoldDedupe(step: Step, closer: Closer, c0: CycleState, records: seq<map<string, Json>>)
    requires StepsOk(step, closer)
    ensures var calls := Fold(step, c0, records).calls;
      forall i :: 0 <= i < |calls| ==> calls[i].key !in c0.processed
    decreases |records|
  {
    if records != [] {
      var rest := records[..|records| - 1];
      var prior := Fold(step, c0, rest);
      FoldDedupe(step, closer, c0, rest);
      FoldProcessedGrows(step, closer, c0, rest);
      var (s, e) := step(prior.state, records[|records| - 1]);
      assert StepOk(prior.state, s, e, closer);
    }
  }

  lemma {:induction false} FoldAddsAccepted(step: Step, closer: Closer, c0: CycleState, records: seq<map<string, Json>>)
    requires StepsOk(step, closer)
    ensures var cy := Fold(step, c0, records);
      forall k :: k !in c0.processed ==>
        (k in cy.state.processed <==> exists i :: 0 <= i < |cy.calls| && cy.calls[i].key == k && Accepted(cy.calls[i].result))
    decreases |records|
  {
    if records != [] {
      var rest := records[..|records| - 1];
      var prior := Fold(step, c0, rest);
      FoldAddsAccepted(step, closer, c0, rest);
      if prior.state.error.None? {
        var (s, e) := step(prior.state, records[|records| - 1]);
        assert StepOk(prior.state, s, e, closer);
        var calls := prior.calls + e.calls;
        forall k | k !in c0.processed
          ensures k in s.processed <==> exists i :: 0 <= i < |calls| && calls[i].key == k && Accepted(calls[i].result)
        {
          if k in s.processed {
            if k in prior.state.processed {
              var i :| 0 <= i < |prior.calls| && prior.calls[i].key == k && Accepted(prior.calls[i].result);
              assert calls[i] == prior.calls[i];
            } else {
              assert calls[|prior.calls|] == e.calls[0];
            }
          } else {
            forall i | 0 <= i < |calls| && calls[i].key == k
              ensures !Accepted(calls[i].result)
            {
              if i < |prior.calls| {
                assert calls[i] == prior.calls[i];
              } else {
                assert calls[i] == e.calls[0];
              }
            }
          }
        }
      }
    }
  }

  lemma {:induction false} FoldCounts(step: Step, closer: Closer, c0: CycleState, records: seq<map<string, Json>>)
    requires StepsOk(step, closer)
    ensures var s := Fold(step, c0, records).state;
      s.error.None? ==> s.dispatched + s.skipped == c0.dispatched + c0.skipped + |records|
    decreases |records|
  {
    if records != [] {
      var prior := Fold(step, c0, records[..|records| - 1]);
      FoldCounts(step, closer, c0, records[..|records| - 1]);
      assert StepOk(prior.state, step(prior.state, records[|records| - 1]).0, step(prior.state, records[|records| - 1]).1, closer);
    }
  }

  lemma {:induction false} FoldKeepsAtMostOnce(step: Step, closer: Closer, c0: CycleState, records: seq<map<string, Json>>, log: seq<Write>)
    requires StepsOk(step, closer) && KeepsAtMostOnce(closer) && AtMostOnceClosed(c0.issues, log)
    ensures var cy := Fold(step, c0, records);
      AtMostOnceClosed(cy.state.issues, log + cy.writes)
    decreases |records|
  {
    if records == [] {
      assert log + [] == log;
    } else {
      var prior := Fold(step, c0, records[..|records| - 1]);
      FoldKeepsAtMostOnce(step, closer, c0, records[..|records| - 1], log);
      if prior.state.error.None? {
        var (s, e) := step(prior.state, records[|records| - 1]);
        assert StepOk(prior.state, s, e, closer);
        var l1 := log + prior.writes;
        assert AtMostOnceClosed(s.issues, l1 + e.writes) by {
          if e.calls == [] {
            assert l1 + e.writes == l1;
          }
        }
        assert log + (prior.writes + e.writes) == l1 + e.writes;
      }
    }
  }

  lemma {:induction false} FoldWatermark(step: Step, clock: Clock, c0: CycleState, records: seq<map<string, Json>>)
    requires StepsAdvance(step, clock) && FormatParses(clock) && clock.parse(c0.maxSeen).Ok?
    ensures var s := Fold(step, c0, records).state;
      s.error.None? ==>
        clock.parse(s.maxSeen).Ok?
        && clock.parse(c0.maxSeen).value <= clock.parse(s.maxSeen).value
        && (forall i :: 0 <= i < |records| && Get(records[i], "mergedAt").JStr? ==>
              clock.parse(Get(records[i], "mergedAt").s).Ok?
              && clock.parse(Get(records[i], "mergedAt").s).value <= clock.parse(s.maxSeen).value)
    decreases |records|
  {
    if records != [] {
      var rest := records[..|records| - 1];
      var prior := Fold(step, c0, rest);
      FoldWatermark(step, clock, c0, rest);
      if prior.state.error.None? {
        var r := records[|records| - 1];
        var s := step(prior.state, r).0;
        if s.error.None? {
          AdvanceMaxBounds(prior.state.maxSeen, Get(r, "mergedAt"), clock);
          forall i | 0 <= i < |records| && Get(records[i], "mergedAt").JStr?
            ensures clock.parse(Get(records[i], "mergedAt").s).Ok?
                    && clock.parse(Get(records[i], "mergedAt").s).value <= clock.parse(s.maxSeen).value
          {
            if i < |rest| {
              assert records[i] == rest[i];
            }
          }
        }
      }
    }
  }

  /** The max-seen time a loop ends with was reached: it is the one it started with
      or the time of one of the records. */
  ghost predicate Reached(clock: Clock, m: string, m0: string, records: seq<map<string, Json>>) {
    m == m0 || exists i :: 0 <= i < |records| && Get(records[i], "mergedAt").JStr?
                           && clock.parse(m) == clock.parse(Get(records[i], "mergedAt").s)
  }

  lemma {:induction false} FoldWatermarkReached(step: Step, clock: Clock, c0: CycleState, records: seq<map<string, Json>>)
    requires StepsAdvance(step, clock) && FormatParses(clock) && clock.parse(c0.maxSeen).Ok?
    ensures var s := Fold(step, c0, records).state;
      s.error.None? ==> Reached(clock, s.maxSeen, c0.maxSeen, records)
    decreases |records|
  {
    if records != [] {
      var rest := records[..|records| - 1];
      var prior := Fold(step, c0, rest);
      FoldWatermarkReached(step, clock, c0, rest);
      FoldWatermark(step, clock, c0, rest);
      if prior.state.error.None? {
        var r := records[|records| - 1];
        var s := step(prior.state, r).0;
        if s.error.None? {
          AdvanceMaxBounds(prior.state.maxSeen, Get(r, "mergedAt"), clock);
          if s.maxSeen == prior.state.maxSeen {
            if prior.state.maxSeen != c0.maxSeen {
              var i :| 0 <= i < |rest| && Get(rest[i], "mergedAt").JStr?
                       && clock.parse(prior.state.maxSeen) == clock.parse(Get(rest[i], "mergedAt").s);
              assert records[i] == rest[i];
            }
          } else {
            assert records[|records| - 1] == r;
          }
        }
      }
    }
  }

  // ---------------------------------------------------------------------------
  // Properties of a cycle

  function Start(processed: map<string, map<string, Json>>, watermark: string, issues: map<string, Json>): CycleState {
    CycleState(processed, watermark, 0, 0, issues, None)
  }

  /** `processed` only grows: every entry present before the cycle is still there, unchanged. */
  lemma CycleProcessedGrows(c0: CycleState, records: seq<map<string, Json>>, env: Env)
    ensures var s := CycleSpec(c0, records, env).state;
      forall k :: k in c0.processed ==> k in s.processed && s.processed[k] == c0.processed[k]
  {
    RecordStepsOk(env);
    FoldProcessedGrows(RecordSteps(env), env.closer, c0, records);
  }

  /** Dedupe: the closer is never called for a key already processed when the
      cycle started. */
  lemma CycleDedupe(c0: CycleState, records: seq<map<string, Json>>, env: Env)
    ensures var calls := CycleSpec(c0, records, env).calls;
      forall i :: 0 <= i < |calls| ==> calls[i].key !in c0.processed
  {
    RecordStepsOk(env);
    FoldDedupe(RecordSteps(env), env.closer, c0, records);
    assert CycleSpec(c0, records, env) == Fold(RecordSteps(env), c0, records);
  }

  /** A key is added to `processed` exactly when the closer was called for it and
      the call was accepted. */
  lemma CycleAddsAccepted(c0: CycleState, records: seq<map<string, Json>>, env: Env)
    ensures var cy := CycleSpec(c0, records, env);
      forall k :: k !in c0.processed ==>
        (k in cy.state.processed <==> exists i :: 0 <= i < |cy.calls| && cy.calls[i].key == k && Accepted(cy.calls[i].result))
  {
    RecordStepsOk(env);
    FoldAddsAccepted(RecordSteps(env), env.closer, c0, records);
  }

  /** On a cycle that ran to the end, every fetched record was counted once, as
      dispatched or as skipped. */
  lemma CycleCounts(c0: CycleState, records: seq<map<string, Json>>, env: Env)
    ensures var s := CycleSpec(c0, records, env).state;
      s.error.None? ==> s.dispatched + s.skipped == c0.dispatched + c0.skipped + |records|
  {
    RecordStepsOk(env);
    FoldCounts(RecordSteps(env), env.closer, c0, records);
  }

  /** The tracker invariant: with `apply_merge_close` as the closer, a cycle never
      closes an issue twice through the log, whatever the processed keys say and
      whichever tracker writes raise, so a cycle re-run after a lost checkpoint or
      a replay after a failed write is harmless. */
  lemma CycleKeepsAtMostOnce(c0: CycleState, records: seq<map<string, Json>>, env: Env, d: Decoders, log: seq<Write>)
    requires IsFallibleApplyMergeClose(env.closer, d) && AtMostOnceClosed(c0.issues, log)
    ensures var cy := CycleSpec(c0, records, env);
      AtMostOnceClosed(cy.state.issues, log + cy.writes)
  {
    RecordStepsOk(env);
    FallibleApplyMergeCloseKeepsAtMostOnce(env.closer, d);
    FoldKeepsAtMostOnce(RecordSteps(env), env.closer, c0, records, log);
  }

  /** The watermark of a cycle that ran to the end is the latest of the old one and
      every string `mergedAt` fetched, skipped records included: it never decreases,
      covers every fetched time, and is the old watermark or one of those times. */
  lemma CycleWatermark(c0: CycleState, records: seq<map<string, Json>>, env: Env)
    requires FormatParses(env.clock) && env.clock.parse(c0.maxSeen).Ok?
    ensures var s := CycleSpec(c0, records, env).state;
      s.error.None? ==>
        env.clock.parse(s.maxSeen).Ok?
        && env.clock.parse(c0.maxSeen).value <= env.clock.parse(s.maxSeen).value
        && (forall i :: 0 <= i < |records| && Get(records[i], "mergedAt").JStr? ==>
              env.clock.parse(Get(records[i], "mergedAt").s).Ok?
              && env.clock.parse(Get(records[i], "mergedAt").s).value <= env.clock.parse(s.maxSeen).value)
        && (s.maxSeen == c0.maxSeen
            || exists i :: 0 <= i < |records| && Get(records[i], "mergedAt").JStr?
                           && env.clock.parse(s.maxSeen) == env.clock.parse(Get(records[i], "mergedAt").s))
  {
    RecordStepsOk(env);
    FoldWatermark(RecordSteps(env), env.clock, c0, records);
    FoldWatermarkReached(RecordSteps(env), env.clock, c0, records);
  }

  /** Idempotence across cycles: once a cycle has recorded an accepted call, a later
      cycle started from the processed keys it left never calls the closer for that
      key again, whatever records it is given. */
  lemma ReplaySkipsAccepted(c0: CycleState, records: seq<map<string, Json>>, env: Env,
                            c1: CycleState, later: seq<map<string, Json>>, env1: Env)
    requires c1.processed == CycleSpec(c0, records, env).state.processed
    ensures var cy := CycleSpec(c0, records, env);
      var cy1 := CycleSpec(c1, later, env1);
      forall i, j :: 0 <= i < |cy.calls| && Accepted(cy.calls[i].result) && 0 <= j < |cy1.calls| ==>
        cy1.calls[j].key != cy.calls[i].key
  {
    var cy := CycleSpec(c0, records, env);
    var cy1 := CycleSpec(c1, later, env1);
    CycleProcessedGrows(c0, records, env);
    CycleAddsAccepted(c0, records, env);
    CycleDedupe(c1, later, env1);
    forall i, j | 0 <= i < |cy.calls| && Accepted(cy.calls[i].result) && 0 <= j < |cy1.calls|
      ensures cy1.calls[j].key != cy.calls[i].key
    {
      assert cy.calls[i].key in c1.processed;
    }
  }

  /** One advance never lowers the max-seen time and covers the record's time. */
  lemma AdvanceMaxBounds(maxSeen: string, mergedAt: Json, c: Clock)
    requires FormatParses(c) && c.parse(maxSeen).Ok?
    ensures var a := AdvanceMax(maxSeen, mergedAt, c);
      a.Ok? ==> c.parse(a.value).Ok? && c.parse(maxSeen).value <= c.parse(a.value).value
                && (mergedAt.JStr? ==> c.parse(mergedAt.s).Ok? && c.parse(mergedAt.s).value <= c.parse(a.value).value)
    ensures var a := AdvanceMax(maxSeen, mergedAt, c);
      a.Err? <==> mergedAt.JStr? && c.parse(mergedAt.s).Err?
    ensures var a := AdvanceMax(maxSeen, mergedAt, c);
      a.Ok? ==> a.value == maxSeen || (mergedAt.JStr? && c.parse(a.value) == c.parse(mergedAt.s))
  {
    if mergedAt.JStr? && c.parse(mergedAt.s).Ok? {
      var t := c.parse(mergedAt.s).value;
      assert c.parse(c.format(t)) == Ok(t);
    }
  }

  /** One more record: the fold over `records[..i + 1]` is one step after the fold
      over `records[..i]`, unless that stopped at an error. */
  lemma FoldNext(step: Step, c0: CycleState, records: seq<map<string, Json>>, i: nat)
    requires i < |records|
    ensures var prior := Fold(step, c0, records[..i]);
      Fold(step, c0, records[..i + 1])
      == if prior.state.error.Some? then prior
         else Cycle(step(prior.state, records[i]).0, prior.writes + step(prior.state, records[i]).1.writes,
                    prior.calls + step(prior.state, records[i]).1.calls)
  {
    assert records[..i + 1][..i] == records[..i];
  }

  /** Once an error escapes, the remaining records are not looked at. */
  lemma {:induction false} FoldAfterError(step: Step, c0: CycleState, records: seq<map<string, Json>>, i: nat)
    requires i <= |records| && Fold(step, c0, records[..i]).state.error.Some?
    ensures Fold(step, c0, records) == Fold(step, c0, records[..i])
    decreases |records| - i
  {
    if i < |records| {
      var next := records[..i + 1];
      assert next[..i] == records[..i];
      FoldAfterError(step, c0, records, i + 1);
    } else {
      assert records[..i] == records;
    }
  }

  // ---------------------------------------------------------------------------
  // The daemon

  /** The processed entries of a loaded checkpoint, kept one key at a time. */
  method FilterProcessed(pm: map<string, Json>) returns (loaded: map<string, map<string, Json>>)
    ensures forall k :: k in loaded <==> k in pm && pm[k].JObj?
    ensures forall k :: k in loaded ==> loaded[k] == pm[k].fields
    ensures loaded == LoadedEntries(pm)
  {
    var keys := pm.Keys;
    loaded := map[];
    while keys != {}
      invariant keys <= pm.Keys
      invariant forall k :: k in loaded <==> k in pm && k !in keys && pm[k].JObj?
      invariant forall k :: k in loaded ==> loaded[k] == pm[k].fields
      decreases keys
    {
      var k :| k in keys;
      if pm[k].JObj? {
        loaded := loaded[k := pm[k].fields];
      }
      keys := keys - {k};
    }
  }

  /** `MergeCloseDaemon`: the state kept between cycles, the checkpoint and heartbeat
      files, and the outward calls (`gh_fetch` and the sleeps between attempts). */
  class Daemon {
    var processed: map<string, map<string, Json>>
    var watermark: string
    var safeMode: bool
    var safeModeReason: string
    var checkpoint: CheckpointFile
    var heartbeat: Option<Heartbeat>
    var fetchCalls: seq<string>
    var sleeps: seq<real>
    const retryAttempts: Attempts
    const backoff: real
    const lookback: nat
    const fetch: Fetcher
    const clock: Clock
    const closer: Closer
    const lock: MergeCloseLock.FileLockGuard

    /** `__init__`: the settings are clamped, the checkpoint is loaded and, outside
        safe mode, saved straight back. */
    constructor (file: CheckpointFile, lockPath: MergeCloseLock.LockPath, pid: int, probe: MergeCloseLock.PidProbe,
                 fetch: Fetcher, clock: Clock, closer: Closer, retryAttempts: int, backoff: real, lookback: int)
      ensures fresh(lock) && lock.path == lockPath && lock.pid == pid && lock.probe == probe && !lock.acquired
      ensures this.retryAttempts == (if retryAttempts < 1 then 1 else retryAttempts)
      ensures this.backoff == (if backoff < 0.0 then 0.0 else backoff)
      ensures this.lookback == (if lookback < 0 then 0 else lookback)
      ensures this.fetch == fetch && this.clock == clock && this.closer == closer
      ensures var l := LoadSpec(file, clock, map[], DEFAULT_WATERMARK);
        processed == l.processed && watermark == l.watermark
        && safeMode == l.error.Some? && safeModeReason == (if l.error.Some? then l.error.value else "")
        && checkpoint == (if l.error.Some? then file else Stored(SaveDoc(l.processed, l.watermark, false, "")))
      ensures heartbeat == None && fetchCalls == [] && sleeps == []
    {
      this.retryAttempts := if retryAttempts < 1 then 1 else retryAttempts;
      this.backoff := if backoff < 0.0 then 0.0 else backoff;
      this.lookback := if lookback < 0 then 0 else lookback;
      this.fetch := fetch;
      this.clock := clock;
      this.closer := closer;
      lock := new MergeCloseLock.FileLockGuard(lockPath, pid, probe);
      processed := map[];
      watermark := DEFAULT_WATERMARK;
      safeMode := false;
      safeModeReason := "";
      checkpoint := file;
      heartbeat := None;
      fetchCalls := [];
      sleeps := [];
      new;
      LoadCheckpoint();
      if !safeMode {
        SaveCheckpoint();
      }
    }

    /** `_load_checkpoint`. */
    method LoadCheckpoint()
      modifies this`processed, this`watermark, this`safeMode, this`safeModeReason
      ensures var l := LoadSpec(checkpoint, clock, old(processed), old(watermark));
        processed == l.processed && watermark == l.watermark
        && safeMode == (old(safeMode) || l.error.Some?)
        && safeModeReason == (if l.error.Some? then l.error.value else old(safeModeReason))
    {
      var failure: Option<string> := None;
      match checkpoint {
      case NoFile =>
        processed := map[];
        watermark := DEFAULT_WATERMARK;
      case Unreadable(e) =>
        failure := Some(e);
      case Stored(doc) =>
        if !doc.JObj? {
          failure := Some(NOT_AN_OBJECT);
        } else if !SchemaAccepted(Get(doc.fields, "schema_version")) {
          failure := Some(UNSUPPORTED_SCHEMA);
        } else {
          var pv := Get(doc.fields, "processed");
          if !pv.JObj? {
            failure := Some(PROCESSED_NOT_OBJECT);
          } else {
            processed := FilterProcessed(pv.fields);
            var window := Get(doc.fields, "window");
            if window.JNull? {
              watermark := DEFAULT_WATERMARK;
            } else if !window.JObj? {
              failure := Some(WINDOW_NOT_OBJECT);
            } else {
              var wm := Get(window.fields, "watermark_merged_at");
              if !IsNonBlankStr(wm) {
                failure := Some(BLANK_WATERMARK);
              } else {
                match clock.parse(wm.s)
                case Err(e) =>
                  failure := Some(e);
                case Ok(t) =>
                  watermark := clock.format(t);
              }
            }
          }
        }
      }
      if failure.Some? {
        safeMode := true;
        safeModeReason := failure.value;
      }
    }

    /** `_save_checkpoint`. */
    method SaveCheckpoint()
      modifies this`checkpoint
      ensures checkpoint == Stored(SaveDoc(processed, watermark, safeMode, safeModeReason))
    {
      checkpoint := Stored(SaveDoc(processed, watermark, safeMode, safeModeReason));
    }

    /** `_write_heartbeat`. */
    method WriteHeartbeat(pollOk: bool, now: string)
      modifies this`heartbeat
      ensures heartbeat == Some(HeartbeatFor(safeMode, safeModeReason, now, pollOk))
    {
      heartbeat := Some(HeartbeatFor(safeMode, safeModeReason, now, pollOk));
    }

    /** `_fetch_with_retry`: at most `retryAttempts` fetches from the watermark less the
        lookback, with the doubling sleep between failed attempts and none after the
        last; a watermark that does not parse escapes before any fetch. */
    method FetchWithRetry() returns (r: Result<Fetched>)
      modifies this`fetchCalls, this`sleeps
      ensures var since := SubtractLookback(watermark, lookback, clock);
        since.Err? ==> r == Err(since.error) && fetchCalls == old(fetchCalls) && sleeps == old(sleeps)
      ensures var since := SubtractLookback(watermark, lookback, clock);
        since.Ok? ==> r == Ok(FetchFrom(fetch, since.value, |old(fetchCalls)|, 0, retryAttempts))
      ensures r.Ok? ==> fetchCalls == old(fetchCalls) + Repeat(SubtractLookback(watermark, lookback, clock).value, r.value.retries + 1)
      ensures r.Ok? ==> sleeps == old(sleeps) + Delays(backoff, r.value.retries)
    {
      var since := SubtractLookback(watermark, lookback, clock);
      if since.Err? {
        return Err(since.error);
      }
      ghost var base := |fetchCalls|;
      var attempt: nat := 0;
      while attempt + 1 < retryAttempts
        invariant attempt < retryAttempts
        invariant fetchCalls == old(fetchCalls) + Repeat(since.value, attempt)
        invariant sleeps == old(sleeps) + Delays(backoff, attempt)
        invariant FetchFrom(fetch, since.value, base, 0, retryAttempts) == FetchFrom(fetch, since.value, base, attempt, retryAttempts)
        decreases retryAttempts - attempt
      {
        var res := fetch(since.value, |fetchCalls|);
        fetchCalls := fetchCalls + [since.value];
        if res.Some? {
          return Ok(Fetched(res.value, attempt, true));
        }
        sleeps := sleeps + [Delay(backoff, attempt)];
        attempt := attempt + 1;
      }
      var res := fetch(since.value, |fetchCalls|);
      fetchCalls := fetchCalls + [since.value];
      if res.Some? {
        return Ok(Fetched(res.value, attempt, true));
      }
      return Ok(Fetched([], attempt, false));
    }

    /** One pass of the loop body of `poll_once`, against the tracker. */
    method ProcessRecord(t: Tracker, record: map<string, Json>, now: string, d: Decoders,
                         maxSeen: string, dispatched: nat, skipped: nat)
      returns (maxSeen': string, dispatched': nat, skipped': nat, error: Option<string>, ghost effect: StepEffect)
      requires IsApplyMergeClose(closer, d)
      modifies this`processed, t
      ensures RecordStep(CycleState(old(processed), maxSeen, dispatched, skipped, old(t.issues), None), record, Env(clock, now, closer))
              == (CycleState(processed, maxSeen', dispatched', skipped', t.issues, error), effect)
      ensures t.log == old(t.log) + effect.writes
      ensures old(t.Valid()) ==> t.Valid()
    {
      var advanced := AdvanceMax(maxSeen, Get(record, "mergedAt"), clock);
      if advanced.Err? {
        return maxSeen, dispatched, skipped, Some(advanced.error), StepEffect([], []);
      }
      maxSeen' := advanced.value;
      dispatched', skipped', error, effect := ProcessPayload(t, record, now, d, maxSeen', dispatched, skipped);
    }

    /** The loop body after the max-seen update: the event, its payload, the replay
        key and the dispatch. */
    method ProcessPayload(t: Tracker, record: map<string, Json>, now: string, d: Decoders,
                          maxSeen: string, dispatched: nat, skipped: nat)
      returns (dispatched': nat, skipped': nat, error: Option<string>, ghost effect: StepEffect)
      requires IsApplyMergeClose(closer, d)
      modifies this`processed, t
      ensures var (s, e) := PayloadStep(CycleState(old(processed), maxSeen, dispatched, skipped, old(t.issues), None),
                                        record, Env(clock, now, closer));
        processed == s.processed && dispatched' == s.dispatched && s.maxSeen == maxSeen
        && skipped' == s.skipped && error == s.error && t.issues == s.issues
        && effect == e && t.log == old(t.log) + e.writes
      ensures old(t.Valid()) ==> t.Valid()
    {
      dispatched', skipped', error, effect := dispatched, skipped + 1, None, StepEffect([], []);
      var event := RecordToEvent(record);
      if event.None? {
        return;
      }
      var preview := PreviewFromEvent(event.value, Daemon);
      if preview.payload.None? {
        return;
      }
      var p := preview.payload.value;
      var key := ReplayIdentityKey(p.prUrl, Get(record, "number"), p.mergeSha);
      if key.Err? {
        skipped' := skipped;
        error := Some(key.error);
        return;
      }
      if key.value in processed {
        return;
      }
      dispatched', skipped', effect := DispatchRecord(t, record, p, key.value, now, d, maxSeen, dispatched, skipped);
    }

    /** The dispatch at the end of the loop body: an exception from `apply_fn` or the
        needs_review rejection counts as skipped, any other answer records the key. */
    method DispatchRecord(t: Tracker, record: map<string, Json>, p: Payload, key: string, now: string,
                          d: Decoders, maxSeen: string, dispatched: nat, skipped: nat)
      returns (dispatched': nat, skipped': nat, ghost effect: StepEffect)
      requires IsApplyMergeClose(closer, d)
      modifies this`processed, t
      ensures var (s, e) := CallStep(CycleState(old(processed), maxSeen, dispatched, skipped, old(t.issues), None),
                                     record, p, key, Env(clock, now, closer));
        processed == s.processed && dispatched' == s.dispatched && skipped' == s.skipped
        && t.issues == s.issues && effect == e && t.log == old(t.log) + e.writes
      ensures old(t.Valid()) ==> t.Valid()
    {
      ghost var o := ApplySpec(t.issues, p, d);
      var outcome := DispatchMergeClose(t, p, d);
      effect := StepEffect(o.writes, [Call(key, p, o.result)]);
      dispatched', skipped' := dispatched, skipped + 1;
      if outcome.Err? {
        return;
      }
      var out := outcome.value;
      if out.invoked && out.result.Some? && !out.result.value.applied
         && out.result.value.reason == REASON_NOT_NEEDS_REVIEW {
        return;
      }
      skipped' := skipped;
      if out.invoked {
        processed := processed[key := ProcessedEntry(record, p, key, now)];
        dispatched' := dispatched + 1;
      }
    }

    /** The per-record loop of `poll_once`: the records in order, stopping at the
        first error that escapes. */
    method RunRecords(t: Tracker, records: seq<map<string, Json>>, now: string, d: Decoders)
      returns (maxSeen: string, dispatched: nat, skipped: nat, error: Option<string>, ghost cycle: Cycle)
      requires IsApplyMergeClose(closer, d)
      modifies this`processed, t
      ensures cycle == CycleSpec(Start(old(processed), watermark, old(t.issues)), records, Env(clock, now, closer))
      ensures cycle.state == CycleState(processed, maxSeen, dispatched, skipped, t.issues, error)
      ensures t.log == old(t.log) + cycle.writes
      ensures old(t.Valid()) ==> t.Valid()
    {
      ghost var env := Env(clock, now, closer);
      ghost var c0 := Start(processed, watermark, t.issues);
      maxSeen, dispatched, skipped, error := watermark, 0, 0, None;
      cycle := Cycle(c0, [], []);
      var i := 0;
      while i < |records|
        invariant i <= |records|
        invariant cycle == CycleSpec(c0, records[..i], env)
        invariant cycle.state == CycleState(processed, maxSeen, dispatched, skipped, t.issues, error)
        invariant error.None?
        invariant t.log == old(t.log) + cycle.writes
        invariant old(t.Valid()) ==> t.Valid()
      {
        ghost var effect;
        ghost var before := cycle.state;
        maxSeen, dispatched, skipped, error, effect := ProcessRecord(t, records[i], now, d, maxSeen, dispatched, skipped);
        FoldNext(RecordSteps(env), c0, records, i);
        assert RecordSteps(env)(before, records[i]) == (CycleState(processed, maxSeen, dispatched, skipped, t.issues, error), effect);
        LogGrows(old(t.log), cycle.writes, effect.writes);
        cycle := Cycle(CycleState(processed, maxSeen, dispatched, skipped, t.issues, error),
                       cycle.writes + effect.writes, cycle.calls + effect.calls);
        i := i + 1;
        if error.Some? {
          FoldAfterError(RecordSteps(env), c0, records, i);
          return;
        }
      }
      assert records[..i] == records;
    }

    /** What one `poll_once` cycle does, from the state before it to the state after it:
        the heartbeat it always writes, and the safe-mode, watermark-error, failed-fetch
        and record-cycle outcomes with the state each one leaves. */
    twostate predicate PolledOnce(t: Tracker, now: string, new r: Result<PollCycleOutcome>)
      reads this, t
    {
      (heartbeat == Some(HeartbeatFor(safeMode, safeModeReason, now, r.Err? || r.value.safeMode || r.value.pollOk)))
      && (old(safeMode) ==>
          r == Ok(PollCycleOutcome(true, false, 0, 0, 0))
          && processed == old(processed) && watermark == old(watermark) && checkpoint == old(checkpoint)
          && fetchCalls == old(fetchCalls) && sleeps == old(sleeps) && t.log == old(t.log) && t.issues == old(t.issues))
      && (var since := SubtractLookback(old(watermark), lookback, clock);
          !old(safeMode) && since.Err? ==>
            r == Err(since.error)
            && processed == old(processed) && watermark == old(watermark) && checkpoint == old(checkpoint)
            && fetchCalls == old(fetchCalls) && sleeps == old(sleeps) && t.log == old(t.log) && t.issues == old(t.issues))
      && (var since := SubtractLookback(old(watermark), lookback, clock);
          !old(safeMode) && since.Ok? ==>
            var f := FetchFrom(fetch, since.value, |old(fetchCalls)|, 0, retryAttempts);
            fetchCalls == old(fetchCalls) + Repeat(since.value, f.retries + 1)
            && sleeps == old(sleeps) + Delays(backoff, f.retries)
            && (!f.ok ==>
                  r == Ok(PollCycleOutcome(false, false, 0, 0, f.retries))
                  && processed == old(processed) && watermark == old(watermark)
                  && checkpoint == Stored(SaveDoc(processed, watermark, false, safeModeReason))
                  && t.log == old(t.log) && t.issues == old(t.issues))
            && (f.ok ==>
                  var cycle := CycleSpec(Start(old(processed), old(watermark), old(t.issues)), f.records, Env(clock, now, closer));
                  processed == cycle.state.processed && t.issues == cycle.state.issues && t.log == old(t.log) + cycle.writes
                  && (cycle.state.error.Some? ==>
                        r == Err(cycle.state.error.value) && watermark == old(watermark) && checkpoint == old(checkpoint))
                  && (cycle.state.error.None? ==>
                        r == Ok(PollCycleOutcome(false, true, cycle.state.dispatched, cycle.state.skipped, f.retries))
                        && watermark == cycle.state.maxSeen
                        && checkpoint == Stored(SaveDoc(processed, watermark, false, safeModeReason)))))
    }

    /** `poll_once`: one cycle. In safe mode nothing is fetched or saved; a failed
        fetch saves the unchanged state; a successful one runs the records, advances
        the watermark to the latest merge time seen and saves. An error escaping the
        loop skips the save and the watermark. The heartbeat is written on every path. */
    method PollOnce(t: Tracker, now: string, d: Decoders) returns (r: Result<PollCycleOutcome>)
      requires IsApplyMergeClose(closer, d)
      modifies this`processed, this`watermark, this`checkpoint, this`heartbeat, this`fetchCalls, this`sleeps, t
      ensures PolledOnce(t, now, r)
      ensures old(t.Valid()) ==> t.Valid()
    {
      if safeMode {
        WriteHeartbeat(true, now);
        return Ok(PollCycleOutcome(true, false, 0, 0, 0));
      }
      r := PollLive(t, now, d);
    }

    /** `poll_once` outside safe mode: fetch, then run the records. */
    method PollLive(t: Tracker, now: string, d: Decoders) returns (r: Result<PollCycleOutcome>)
      requires IsApplyMergeClose(closer, d) && !safeMode
      modifies this`processed, this`watermark, this`checkpoint, this`heartbeat, this`fetchCalls, this`sleeps, t
      ensures heartbeat == Some(HeartbeatFor(safeMode, safeModeReason, now, r.Err? || r.value.pollOk))
      ensures old(t.Valid()) ==> t.Valid()
      ensures var since := SubtractLookback(old(watermark), lookback, clock);
        since.Err? ==>
          r == Err(since.error)
          && processed == old(processed) && watermark == old(watermark) && checkpoint == old(checkpoint)
          && fetchCalls == old(fetchCalls) && sleeps == old(sleeps) && t.log == old(t.log) && t.issues == old(t.issues)
      ensures var since := SubtractLookback(old(watermark), lookback, clock);
        since.Ok? ==>
          var f := FetchFrom(fetch, since.value, |old(fetchCalls)|, 0, retryAttempts);
          fetchCalls == old(fetchCalls) + Repeat(since.value, f.retries + 1)
          && sleeps == old(sleeps) + Delays(backoff, f.retries)
          && (!f.ok ==>
                r == Ok(PollCycleOutcome(false, false, 0, 0, f.retries))
                && processed == old(processed) && watermark == old(watermark)
                && checkpoint == Stored(SaveDoc(processed, watermark, false, safeModeReason))
                && t.log == old(t.log) && t.issues == old(t.issues))
          && (f.ok ==>
                var cycle := CycleSpec(Start(old(processed), old(watermark), old(t.issues)), f.records, Env(clock, now, closer));
                processed == cycle.state.processed && t.issues == cycle.state.issues && t.log == old(t.log) + cycle.writes
                && (cycle.state.error.Some? ==>
                      r == Err(cycle.state.error.value) && watermark == old(watermark) && checkpoint == old(checkpoint))
                && (cycle.state.error.None? ==>
                      r == Ok(PollCycleOutcome(false, true, cycle.state.dispatched, cycle.state.skipped, f.retries))
                      && watermark == cycle.state.maxSeen
                      && checkpoint == Stored(SaveDoc(processed, watermark, false, safeModeReason))))
    {
      var fetched := FetchWithRetry();
      if fetched.Err? {
        WriteHeartbeat(true, now);
        return Err(fetched.error);
      }
      r := FinishCycle(t, fetched.value, now, d);
    }

    /** The rest of `poll_once` once the fetch has returned. */
    method FinishCycle(t: Tracker, f: Fetched, now: string, d: Decoders) returns (r: Result<PollCycleOutcome>)
      requires IsApplyMergeClose(closer, d)
      modifies this`processed, this`watermark, this`checkpoint, this`heartbeat, t
      ensures heartbeat == Some(HeartbeatFor(safeMode, safeModeReason, now, r.Err? || r.value.pollOk))
      ensures old(t.Valid()) ==> t.Valid()
      ensures !f.ok ==>
        r == Ok(PollCycleOutcome(safeMode, false, 0, 0, f.retries))
        && processed == old(processed) && watermark == old(watermark)
        && checkpoint == Stored(SaveDoc(processed, watermark, safeMode, safeModeReason))
        && t.log == old(t.log) && t.issues == old(t.issues)
      ensures f.ok ==>
        var cycle := CycleSpec(Start(old(processed), old(watermark), old(t.issues)), f.records, Env(clock, now, closer));
        processed == cycle.state.processed && t.issues == cycle.state.issues && t.log == old(t.log) + cycle.writes
        && (cycle.state.error.Some? ==>
              r == Err(cycle.state.error.value) && watermark == old(watermark) && checkpoint == old(checkpoint))
        && (cycle.state.error.None? ==>
              r == Ok(PollCycleOutcome(safeMode, true, cycle.state.dispatched, cycle.state.skipped, f.retries))
              && watermark == cycle.state.maxSeen
              && checkpoint == Stored(SaveDoc(processed, watermark, safeMode, safeModeReason)))
    {
      if f.ok {
        var maxSeen, dispatched, skipped, error, cycle := RunRecords(t, f.records, now, d);
        if error.Some? {
          WriteHeartbeat(true, now);
          return Err(error.value);
        }
        watermark := maxSeen;
        SaveCheckpoint();
        WriteHeartbeat(true, now);
        return Ok(PollCycleOutcome(safeMode, true, dispatched, skipped, f.retries));
      }
      SaveCheckpoint();
      WriteHeartbeat(false, now);
      return Ok(PollCycleOutcome(safeMode, false, 0, 0, f.retries));
    }

    /** `run_once_with_lock`: one cycle inside the lock. A refused lock raises before
        anything else happens; otherwise the lock file is removed again after the cycle. */
    method RunOnceWithLock(t: Tracker, now: string, d: Decoders) returns (r: Result<PollCycleOutcome>)
      requires IsApplyMergeClose(closer, d)
      modifies this`processed, this`watermark, this`checkpoint, this`heartbeat, this`fetchCalls, this`sleeps, t
      modifies lock, lock.path
      ensures var (_, refused) := MergeCloseLock.AcquireSpec(old(lock.path.file), lock.pid, lock.probe);
        refused.Some? ==>
          r == Err(refused.value) && lock.path.file == old(lock.path.file) && lock.acquired == old(lock.acquired)
          && heartbeat == old(heartbeat) && checkpoint == old(checkpoint) && processed == old(processed)
          && fetchCalls == old(fetchCalls) && t.log == old(t.log)
          && watermark == old(watermark) && sleeps == old(sleeps) && t.issues == old(t.issues)
      ensures var (_, refused) := MergeCloseLock.AcquireSpec(old(lock.path.file), lock.pid, lock.probe);
        refused.None? ==>
          lock.path.file == MergeCloseLock.Absent && !lock.acquired && PolledOnce(t, now, r)
      ensures old(t.Valid()) ==> t.Valid()
    {
      var refused := lock.Acquire();
      if refused.Some? {
        return Err(refused.value);
      }
      r := PollOnce(t, now, d);
      lock.Release();
    }
  }
}

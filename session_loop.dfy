// One issue's implement / spec-review / quality-review session: session_loop.py.

module SessionLoop {
  import opened Common
  import opened Snapshot
  import opened Models

  const SPEC_MAX_ATTEMPTS: nat := 3
  const QUALITY_MAX_ATTEMPTS: nat := 2

  /** The tracker writes, in the order they are made. A feedback write records the
      snapshot event; the text written is the JSON of `SnapshotOf` for the session. */
  datatype Write =
    | SetStatus(issueId: string, status: string)
    | Feedback(issueId: string, event: Event)
    | CreateFix(title: string, body: string)
    | Link(fromId: string, toId: string, relation: string)

  /** The calls made to the implementer and the two reviewers, in order. */
  datatype Call =
    | Implement(fixList: Option<seq<string>>)
    | SpecReview(attempt: nat)
    | QualityReview(attempt: nat)

  /** The tracker gateway: every write is recorded; `create_fix_issue` answers
      `newFixId` (an id, or the exception it raises), `get_ready_issues` answers `ready`
      and `show_issue(id)` answers `shown(id)`. */
  class Gateway {
    var writes: seq<Write>
    /** How often the ready queue was read. */
    var readyQueries: nat
    const newFixId: Result<string>
    const ready: Result<seq<Attr>>
    const shown: string -> Result<Attr>

    constructor (newFixId: Result<string>, ready: Result<seq<Attr>>, shown: string -> Result<Attr>)
      ensures writes == [] && readyQueries == 0
      ensures this.newFixId == newFixId && this.ready == ready && this.shown == shown
    {
      writes := [];
      readyQueries := 0;
      this.newFixId := newFixId;
      this.ready := ready;
      this.shown := shown;
    }

    method GetReadyIssues() returns (r: Result<seq<Attr>>)
      modifies this`readyQueries
      ensures r == ready && readyQueries == old(readyQueries) + 1 && writes == old(writes)
    {
      readyQueries := readyQueries + 1;
      r := ready;
    }

    method ShowIssue(issueId: string) returns (r: Result<Attr>)
      ensures r == shown(issueId)
    {
      r := shown(issueId);
    }

    method SetIssueStatus(issueId: string, status: string)
      modifies this`writes
      ensures writes == old(writes) + [SetStatus(issueId, status)]
    {
      writes := writes + [SetStatus(issueId, status)];
    }

    method AddFeedback(issueId: string, event: Event)
      modifies this`writes
      ensures writes == old(writes) + [Feedback(issueId, event)]
    {
      writes := writes + [Feedback(issueId, event)];
    }

    method CreateFixIssue(title: string, body: string) returns (r: Result<string>)
      modifies this`writes
      ensures r == newFixId
      ensures writes == old(writes) + [CreateFix(title, body)]
    {
      writes := writes + [CreateFix(title, body)];
      r := newFixId;
    }

    method LinkIssues(fromId: string, toId: string, relation: string)
      modifies this`writes
      ensures writes == old(writes) + [Link(fromId, toId, relation)]
    {
      writes := writes + [Link(fromId, toId, relation)];
    }
  }

  /** The implementer and the two reviewers. The implementer's `n`-th call (from 0)
      answers `implement(n)`; a reviewer's call for attempt `a` answers `review(a)`;
      an `Err` is the exception raised. */
  class Agents {
    const implement: nat -> Result<ImplementerResult>
    const specReview: nat -> Result<ReviewResult>
    const qualityReview: nat -> Result<ReviewResult>
    var calls: seq<Call>
    var implemented: nat

    constructor (implement: nat -> Result<ImplementerResult>, specReview: nat -> Result<ReviewResult>,
                 qualityReview: nat -> Result<ReviewResult>)
      ensures this.implement == implement && this.specReview == specReview && this.qualityReview == qualityReview
      ensures calls == [] && implemented == 0
    {
      this.implement := implement;
      this.specReview := specReview;
      this.qualityReview := qualityReview;
      calls := [];
      implemented := 0;
    }

    method CallImplementer(prompt: string, fixList: Option<seq<string>>) returns (r: Result<ImplementerResult>)
      modifies this
      ensures r == implement(old(implemented)) && implemented == old(implemented) + 1
      ensures calls == old(calls) + [Implement(fixList)]
    {
      r := implement(implemented);
      implemented := implemented + 1;
      calls := calls + [Implement(fixList)];
    }

    method CallSpecReviewer(prompt: string, result: ImplementerResult, attempt: nat) returns (r: Result<ReviewResult>)
      modifies this
      ensures r == specReview(attempt) && implemented == old(implemented)
      ensures calls == old(calls) + [SpecReview(attempt)]
    {
      r := specReview(attempt);
      calls := calls + [SpecReview(attempt)];
    }

    method CallQualityReviewer(prompt: string, result: ImplementerResult, attempt: nat) returns (r: Result<ReviewResult>)
      modifies this
      ensures r == qualityReview(attempt) && implemented == old(implemented)
      ensures calls == old(calls) + [QualityReview(attempt)]
    {
      r := qualityReview(attempt);
      calls := calls + [QualityReview(attempt)];
    }

    /** The latest implementation: the answer of the last implementer call. */
    function Latest(): Result<ImplementerResult>
      reads this
    {
      implement(if implemented == 0 then 0 else implemented - 1)
    }
  }

  // ---------------------------------------------------------------------------
  // Properties of the call log

  function CountSpec(d: seq<Call>): nat {
    if d == [] then 0 else CountSpec(d[..|d| - 1]) + (if d[|d| - 1].SpecReview? then 1 else 0)
  }

  function CountQuality(d: seq<Call>): nat {
    if d == [] then 0 else CountQuality(d[..|d| - 1]) + (if d[|d| - 1].QualityReview? then 1 else 0)
  }

  lemma CountsAppend(d: seq<Call>, c: Call)
    ensures CountSpec(d + [c]) == CountSpec(d) + (if c.SpecReview? then 1 else 0)
    ensures CountQuality(d + [c]) == CountQuality(d) + (if c.QualityReview? then 1 else 0)
  {
    assert (d + [c])[..|d|] == d;
  }

  predicate Failed(r: Result<ReviewResult>) {
    r.Ok? && !r.value.passed
  }

  predicate Passed(r: Result<ReviewResult>) {
    r.Ok? && r.value.passed
  }

  /** An implementer call that follows `prev` carries the fix list of that failed review. */
  predicate FixFrom(prev: Call, fix: Option<seq<string>>,
                    spec: nat -> Result<ReviewResult>, quality: nat -> Result<ReviewResult>) {
    match prev
    case SpecReview(a) => Failed(spec(a)) && fix == Some(spec(a).value.fixList)
    case QualityReview(a) => Failed(quality(a)) && fix == Some(quality(a).value.fixList)
    case Implement(_) => false
  }

  /** The first implementer call gets no fix list; every later one directly follows a
      failed review and gets that review's fix list. */
  predicate FixListsFlow(d: seq<Call>, spec: nat -> Result<ReviewResult>, quality: nat -> Result<ReviewResult>) {
    |d| >= 1 && d[0] == Implement(None) && FixesFollow(d, spec, quality)
  }

  /** Each implementer call past the first follows a failed review with its fix list,
      stated on the log one call at a time. */
  predicate FixesFollow(d: seq<Call>, spec: nat -> Result<ReviewResult>, quality: nat -> Result<ReviewResult>)
    decreases |d|
  {
    |d| <= 1
    || (FixesFollow(d[..|d| - 1], spec, quality)
        && (d[|d| - 1].Implement? ==> FixFrom(d[|d| - 2], d[|d| - 1].fixList, spec, quality)))
  }

  lemma FixesFollowAppend(d: seq<Call>, spec: nat -> Result<ReviewResult>, quality: nat -> Result<ReviewResult>, c: Call)
    requires |d| >= 1 && FixesFollow(d, spec, quality)
    requires c.Implement? ==> FixFrom(d[|d| - 1], c.fixList, spec, quality)
    ensures FixesFollow(d + [c], spec, quality)
  {
    var e := d + [c];
    assert e[..|e| - 1] == d;
    assert e[|e| - 1] == c && e[|e| - 2] == d[|d| - 1];
  }

  /** The quantified reading: every implementer call at `j >= 1` carries the fix list of
      the failed review just before it. */
  lemma {:induction false} FixesFollowAt(d: seq<Call>, spec: nat -> Result<ReviewResult>, quality: nat -> Result<ReviewResult>, j: int)
    requires FixesFollow(d, spec, quality) && 1 <= j < |d| && d[j].Implement?
    ensures FixFrom(d[j - 1], d[j].fixList, spec, quality)
    decreases |d|
  {
    if j < |d| - 1 {
      var p := d[..|d| - 1];
      assert p[j] == d[j] && p[j - 1] == d[j - 1];
      FixesFollowAt(p, spec, quality, j);
    }
  }

  predicate SpecPassedAt(d: seq<Call>, i: int, spec: nat -> Result<ReviewResult>) {
    0 <= i < |d| && d[i].SpecReview? && Passed(spec(d[i].attempt))
  }

  /** Every quality review comes after the spec review at `passAt`, which passed. */
  predicate QualityAfter(d: seq<Call>, passAt: int, spec: nat -> Result<ReviewResult>) {
    forall j :: 0 <= j < |d| && d[j].QualityReview? ==> passAt < j && SpecPassedAt(d, passAt, spec)
  }

  /** The facts every prefix of a run's call log keeps: the retry bounds and the order
      of the calls. */
  predicate CallTrail(d: seq<Call>, passAt: int, spec: nat -> Result<ReviewResult>, quality: nat -> Result<ReviewResult>) {
    CountSpec(d) <= SPEC_MAX_ATTEMPTS && CountQuality(d) <= QUALITY_MAX_ATTEMPTS
    && FixListsFlow(d, spec, quality) && QualityAfter(d, passAt, spec)
  }

  /** `_fresh_verification_passed`: evidence exists, exited 0, and was produced no
      earlier than the last code change. */
  predicate Fresh(r: ImplementerResult) {
    r.verification.Some? && r.verification.value.exitCode == 0
    && r.verification.value.producedAt.at >= r.codeChangedAt
  }

  // ---------------------------------------------------------------------------
  // Snapshots and the overflow issue

  /** What one snapshot names besides its event: the issue, the session and
      orchestrator ids, the clock's text and the calendar check of timestamps. */
  datatype Session = Session(issue: IssueContext, sessionId: string, orchestratorId: string,
                             now: string, parses: string -> bool)

  /** The loop's locals the error snapshot reports. */
  datatype Progress = Progress(spec: nat, quality: nat, latest: Option<ImplementerResult>)

  function StrItems(xs: seq<string>): (r: seq<Json>)
    ensures |r| == |xs| && forall i :: 0 <= i < |xs| ==> r[i] == JStr(xs[i])
  {
    seq(|xs|, i requires 0 <= i < |xs| => JStr(xs[i]))
  }

  /** `_serialize_verify` */
  function VerifyJson(v: Option<Verification>): Json {
    match v
    case None => JNull
    case Some(x) => JObj(map["command" := JStr(x.command), "exit_code" := JInt(x.exitCode),
                             "produced_at" := JStr(x.producedAt.iso)])
  }

  function LatestVerification(latest: Option<ImplementerResult>): Option<Verification> {
    if latest.None? then None else latest.value.verification
  }

  /** What varies between the snapshots of one session: the arguments of `_snapshot`. */
  datatype Event = Event(eventType: string, stage: string, status: string, spec: nat, quality: nat,
                         failed: seq<string>, fix: seq<string>, verify: Option<Verification>)

  /** The dict `_snapshot` builds. */
  function SnapshotOf(s: Session, e: Event): map<string, Json> {
    map[
      "schema_version" := JStr(SCHEMA_VERSION), "session_id" := JStr(s.sessionId),
      "orchestrator_id" := JStr(s.orchestratorId), "issue_id" := JStr(s.issue.issueId),
      "task_id" := JStr(s.issue.taskId), "event_type" := JStr(e.eventType), "stage" := JStr(e.stage),
      "status" := JStr(e.status), "attempts" := JObj(map["spec" := JInt(e.spec), "quality" := JInt(e.quality)]),
      "failed_items" := JList(StrItems(e.failed)), "fix_list" := JList(StrItems(e.fix)),
      "verify" := VerifyJson(e.verify), "timestamp" := JStr(s.now)]
  }

  /** The event of the session-error handler. */
  function ErrorEvent(pr: Progress, message: string): Event {
    Event("SESSION_ERROR", "RUNNING", "FAIL", pr.spec, pr.quality, [message], [], LatestVerification(pr.latest))
  }

  /** When a built snapshot validates: only the session id, the enumerations and the
      two timestamps can make it fail (and a negative exit code). */
  predicate EventOk(s: Session, e: Event, voc: Vocabulary) {
    !IsBlank(s.sessionId)
    && e.eventType in voc.eventTypes && e.stage in voc.stages && e.status in voc.statuses
    && UtcTimestamp(s.now, s.parses)
    && (e.verify.Some? ==>
          e.verify.value.exitCode >= 0 && UtcTimestamp(e.verify.value.producedAt.iso, s.parses))
  }

  lemma {:induction false} SnapshotOfWellFormed(s: Session, e: Event, voc: Vocabulary)
    ensures WellFormed(SnapshotOf(s, e), voc, s.parses) <==> EventOk(s, e, voc)
  {
    SnapshotOfShape(s, e);
    WellFormedFromParts(SnapshotOf(s, e), s, e, voc);
  }

  /** What a built snapshot holds, field by field. */
  lemma SnapshotOfShape(s: Session, e: Event)
    ensures SnapshotParts(SnapshotOf(s, e), s, e)
  {
    var p := SnapshotOf(s, e);
    assert p.Keys == REQUIRED_FIELDS;
    forall i | 0 <= i < |STRING_FIELDS|
      ensures p[STRING_FIELDS[i]].JStr?
    {
      assert STRING_FIELDS[i] in {"schema_version", "session_id", "orchestrator_id", "issue_id", "task_id",
                                  "event_type", "stage", "status", "timestamp"};
    }
  }

  predicate SnapshotParts(p: map<string, Json>, s: Session, e: Event) {
    p.Keys == REQUIRED_FIELDS
    && (forall i :: 0 <= i < |STRING_FIELDS| ==> p[STRING_FIELDS[i]].JStr?)
    && p["schema_version"] == JStr(SCHEMA_VERSION) && p["session_id"] == JStr(s.sessionId)
    && p["event_type"] == JStr(e.eventType) && p["stage"] == JStr(e.stage) && p["status"] == JStr(e.status)
    && p["attempts"] == JObj(map["spec" := JInt(e.spec), "quality" := JInt(e.quality)])
    && p["failed_items"] == JList(StrItems(e.failed)) && p["fix_list"] == JList(StrItems(e.fix))
    && p["verify"] == VerifyJson(e.verify) && p["timestamp"] == JStr(s.now)
  }

  lemma WellFormedFromParts(p: map<string, Json>, s: Session, e: Event, voc: Vocabulary)
    requires SnapshotParts(p, s, e)
    ensures WellFormed(p, voc, s.parses) <==> EventOk(s, e, voc)
  {
    assert p["attempts"].fields.Keys == ATTEMPT_FIELDS;
    assert StrList(p["failed_items"]) && StrList(p["fix_list"]);
    if e.verify.Some? {
      assert p["verify"].fields.Keys <= VERIFY_FIELDS;
    }
  }

  /** Why validation rejects the snapshot of event `e` in session `s`, if it does: the
      checks that can fail on a built snapshot, in the order they are made. */
  function EventRejection(s: Session, e: Event, voc: Vocabulary): (r: Option<string>)
    ensures r.None? <==> EventOk(s, e, voc)
  {
    if IsBlank(s.sessionId) then Some("Invalid session_id: must be non-empty string")
    else if e.eventType !in voc.eventTypes then Some("Invalid event_type: " + e.eventType)
    else if e.stage !in voc.stages then Some("Invalid stage: " + e.stage)
    else if e.status !in voc.statuses then Some("Invalid status: " + e.status)
    else if !UtcTimestamp(s.now, s.parses) then Some("Invalid timestamp: must be ISO-8601 UTC string")
    else if e.verify.Some? && e.verify.value.exitCode < 0 then Some("Invalid verify.exit_code: must be >= 0")
    else if e.verify.Some? && !UtcTimestamp(e.verify.value.producedAt.iso, s.parses) then
      Some("Invalid verify.produced_at: must be ISO-8601 UTC string")
    else None
  }

  lemma RejectionFromParts(p: map<string, Json>, s: Session, e: Event, voc: Vocabulary)
    requires SnapshotParts(p, s, e)
    ensures Rejection(p, voc, s.parses) == EventRejection(s, e, voc)
  {
    RejectionIsFieldError(p, s, e, voc);
    FieldErrorFromParts(p, s, e, voc);
    VerifyErrorOf(e.verify, s.parses);
  }

  /** A built snapshot passes the key and text-field checks. */
  lemma RejectionIsFieldError(p: map<string, Json>, s: Session, e: Event, voc: Vocabulary)
    requires SnapshotParts(p, s, e)
    ensures Rejection(p, voc, s.parses) == FieldError(p, voc, s.parses)
  {
    RejectionIsFieldCheck(p, voc, s.parses);
  }

  lemma FieldErrorFromParts(p: map<string, Json>, s: Session, e: Event, voc: Vocabulary)
    requires SnapshotParts(p, s, e)
    ensures FieldError(p, voc, s.parses) == EventRejection(s, e, voc)
  {
    assert p["session_id"].s == s.sessionId && p["event_type"].s == e.eventType
      && p["stage"].s == e.stage && p["status"].s == e.status;
    if !IsBlank(s.sessionId) && e.eventType in voc.eventTypes && e.stage in voc.stages && e.status in voc.statuses {
      LaterChecksFromParts(p, s, e);
    }
  }

  /** The checks after the enumerations: on a built snapshot only the timestamp and
      the verify block can fail. */
  lemma LaterChecksFromParts(p: map<string, Json>, s: Session, e: Event)
    requires SnapshotParts(p, s, e)
    ensures OrElse(AttemptsError(p["attempts"]),
            OrElse(ListError(p["failed_items"], "failed_items"),
            OrElse(ListError(p["fix_list"], "fix_list"),
            OrElse(if UtcTimestamp(p["timestamp"].s, s.parses) then None
                   else Some("Invalid timestamp: must be ISO-8601 UTC string"),
            VerifyError(p["verify"], s.parses)))))
         == if !UtcTimestamp(s.now, s.parses) then Some("Invalid timestamp: must be ISO-8601 UTC string")
            else VerifyError(VerifyJson(e.verify), s.parses)
  {
    assert AttemptsError(p["attempts"]).None? by {
      assert p["attempts"].fields.Keys == ATTEMPT_FIELDS;
    }
    assert ListError(p["failed_items"], "failed_items").None? && ListError(p["fix_list"], "fix_list").None?;
  }

  lemma VerifyErrorOf(v: Option<Verification>, parses: string -> bool)
    ensures VerifyError(VerifyJson(v), parses)
            == if v.Some? && v.value.exitCode < 0 then Some("Invalid verify.exit_code: must be >= 0")
               else if v.Some? && !UtcTimestamp(v.value.producedAt.iso, parses) then
                 Some("Invalid verify.produced_at: must be ISO-8601 UTC string")
               else None
  {
    if v.Some? {
      assert VerifyJson(v).fields.Keys - VERIFY_FIELDS == {};
    }
  }

  /** The snapshot of an event is rejected with exactly `EventRejection`'s message. */
  lemma EventRejectionExact(s: Session, e: Event, voc: Vocabulary)
    ensures Rejection(SnapshotOf(s, e), voc, s.parses) == EventRejection(s, e, voc)
  {
    SnapshotOfShape(s, e);
    RejectionFromParts(SnapshotOf(s, e), s, e, voc);
  }

  function FixTitle(issue: IssueContext): string {
    "[FIX] " + issue.taskId + ": " + issue.title
  }

  function OverflowReason(stage: string, attempt: nat, max: nat): string {
    stage + " failed at attempt " + NatToString(attempt) + "/" + NatToString(max)
  }

  /** `"\n".join(f"- {item}" for item in items)` */
  function Bullets(items: seq<string>): string
    decreases |items|
  {
    if items == [] then ""
    else if |items| == 1 then "- " + items[0]
    else "- " + items[0] + "\n" + Bullets(items[1..])
  }

  /** `_build_fix_issue_body` */
  function FixIssueBody(issue: IssueContext, reason: string, failed: seq<string>, v: Option<Verification>): string {
    var verifyOutput :=
      if v.None? then "verify_output: NOT_RUN"
      else "command: " + v.value.command + "\nexit_code: " + IntToString(v.value.exitCode)
           + "\noutput:\n" + v.value.output;
    // the joined lines are empty exactly when there are no items
    var failedLines := if failed == [] then "- (none)" else Bullets(failed);
    "original task id: " + issue.issueId + "\noverflow reason: " + reason
    + "\nfailed acceptance items:\n" + failedLines + "\n\nlatest verification evidence/output:\n"
    + verifyOutput + "\n\nfull original DoD:\n" + issue.dodChecklistFull
  }

  /** The issue is never moved to `needs_review` in `w`. */
  predicate NoNeedsReview(w: seq<Write>, issueId: string) {
    SetStatus(issueId, "needs_review") !in w
  }


  /** The issue is in progress (its first write) and has not been handed to review. */
  predicate Open(w: seq<Write>, issueId: string) {
    |w| >= 1 && w[0] == SetStatus(issueId, "in_progress") && NoNeedsReview(w, issueId)
  }

  /** How a run that ended with `r` after `writes` stands to the review gate, `gate`
      being the review-gate snapshot it tried to write, if it got that far. Without
      one the issue was never moved to `needs_review` and the run did not end at the
      gate. With one the issue was moved to `needs_review`, and the run succeeded
      exactly when that snapshot validated, raising its validation error otherwise. */
  ghost predicate GateOutcome(gate: Option<Event>, writes: seq<Write>, r: Result<SessionOutcome>, s: Session, voc: Vocabulary) {
    && (gate.None? ==> NoNeedsReview(writes, s.issue.issueId) && (r.Ok? ==> r.value.finalState == VerifyFailed))
    && (gate.Some? ==>
          && gate.value.stage == "REVIEW_GATE" && gate.value.status == "NEEDS_REVIEW"
          && !NoNeedsReview(writes, s.issue.issueId)
          && (r.Ok? <==> EventOk(s, gate.value, voc))
          && (r.Ok? ==> r.value.finalState != VerifyFailed)
          && (r.Err? ==> Some(r.error) == EventRejection(s, gate.value, voc)))
  }

  /** The event, stage and status names the session loop writes. */
  predicate LoopEvent(e: Event) {
    (e.eventType, e.stage, e.status) in {
      ("IMPLEMENT_DONE", "RUNNING", "PASS"),
      ("SPEC_REVIEW_PASS", "SPEC_REVIEW", "PASS"), ("SPEC_REVIEW_FAIL", "SPEC_REVIEW", "FAIL"),
      ("SPEC_FIX_APPLIED", "SPEC_FIX", "PASS"),
      ("QUALITY_REVIEW_PASS", "QUALITY_REVIEW", "PASS"), ("QUALITY_REVIEW_FAIL", "QUALITY_REVIEW", "FAIL"),
      ("QUALITY_FIX_APPLIED", "QUALITY_FIX", "PASS"),
      ("VERIFY_FAILED", "VERIFICATION", "VERIFY_FAILED"),
      ("SESSION_DONE", "REVIEW_GATE", "NEEDS_REVIEW"),
      ("OVERFLOW_FIX_CREATED", "REVIEW_GATE", "NEEDS_REVIEW"),
      ("SESSION_ERROR", "RUNNING", "FAIL")}
  }

  /** With the corrected enumerations every snapshot the loop writes passes the
      enumeration checks: only the session id and the timestamps can fail it. */
  lemma LoopEventsCorrected(s: Session, e: Event)
    requires LoopEvent(e)
    ensures EventOk(s, e, CORRECTED) <==>
      !IsBlank(s.sessionId) && UtcTimestamp(s.now, s.parses)
      && (e.verify.Some? ==> e.verify.value.exitCode >= 0 && UtcTimestamp(e.verify.value.producedAt.iso, s.parses))
  {
  }

  /** With the enumerations as snapshot.py writes them, the review-gate snapshots of a
      finished or overflowing session never validate. */
  lemma ReviewGateRejectedAsWritten(s: Session, e: Event)
    requires e.stage == "REVIEW_GATE"
    ensures !EventOk(s, e, AS_WRITTEN)
  {
    assert "REVIEW_GATE" !in AS_WRITTEN.stages;
  }

  /** The snapshot of a review: its verdict, the attempt counters, the reviewer's
      lists and the latest implementation's evidence. */
  function ReviewEvent(quality: bool, pr: Progress, review: ReviewResult): Event {
    var eventType :=
      if quality then (if review.passed then "QUALITY_REVIEW_PASS" else "QUALITY_REVIEW_FAIL")
      else (if review.passed then "SPEC_REVIEW_PASS" else "SPEC_REVIEW_FAIL");
    Event(eventType, if quality then "QUALITY_REVIEW" else "SPEC_REVIEW", if review.passed then "PASS" else "FAIL",
          pr.spec, pr.quality, review.failedItems, review.fixList, LatestVerification(pr.latest))
  }

  /** `emit_snapshot_json` followed by `add_feedback`: the snapshot of event `e` is
      validated against `voc` and added as feedback, or the validation error is raised
      and nothing is written. */
  method EmitSnapshot(gateway: Gateway, s: Session, e: Event, voc: Vocabulary) returns (err: Option<string>)
    modifies gateway`writes
    ensures err.None? <==> EventOk(s, e, voc)
    ensures err.None? ==> gateway.writes == old(gateway.writes) + [Feedback(s.issue.issueId, e)]
    ensures err.Some? ==> gateway.writes == old(gateway.writes)
    ensures err == EventRejection(s, e, voc)
  {
    var p := SnapshotOf(s, e);
    var emitted := EmitSnapshotJson(p, voc, s.parses);
    SnapshotOfWellFormed(s, e, voc);
    EventRejectionExact(s, e, voc);
    if emitted.Err? {
      return Some(emitted.error);
    }
    gateway.AddFeedback(s.issue.issueId, e);
    return None;
  }

  /** What one review step comes to: the reviewer or the snapshot raised `error`, the
      review passed, or it failed with `review`. */
  datatype Verdict = Raised(error: string) | Accepted | Rejected(review: ReviewResult)

  class SingleSessionOrchestrator {
    const gateway: Gateway
    /** The enumerations snapshots are validated against. */
    const voc: Vocabulary

    /** `voc` is `AS_WRITTEN` for the code as it stands and `CORRECTED` for the
        enumerations the session loop evidently means. */
    constructor (gateway: Gateway, voc: Vocabulary)
      ensures this.gateway == gateway && this.voc == voc
    {
      this.gateway := gateway;
      this.voc := voc;
    }

    /** `_snapshot`: validate (against `voc`) and add as feedback, or
        raise the validation error and write nothing. */
    method Snap(s: Session, e: Event) returns (err: Option<string>)
      modifies gateway
      ensures err.None? <==> EventOk(s, e, voc)
      ensures err.None? ==> gateway.writes == old(gateway.writes) + [Feedback(s.issue.issueId, e)]
      ensures err.Some? ==> gateway.writes == old(gateway.writes)
      ensures err == EventRejection(s, e, voc)
    {
      err := EmitSnapshot(gateway, s, e, voc);
    }

    /** `run_issue`: the session and, when its body raises (with `message`, the loop's
        locals being `pr`), the error snapshot followed by the same exception, or by the
        error snapshot's own validation error. */
    method RunIssue(issue: IssueContext, prompt: string, agents: Agents, sessionId: string,
                    defaultSessionId: string, orchestratorId: string, now: string, parses: string -> bool)
      returns (r: Result<SessionOutcome>, ghost calls: seq<Call>, ghost writes: seq<Write>,
               ghost passAt: int, ghost pr: Progress, ghost message: string, ghost gate: Option<Event>)
      modifies gateway, agents
      ensures agents.calls == old(agents.calls) + calls && gateway.writes == old(gateway.writes) + writes
      // the first write moves the issue to in_progress
      ensures |writes| >= 1 && writes[0] == SetStatus(issue.issueId, "in_progress")
      // retry bounds
      ensures CountSpec(calls) <= SPEC_MAX_ATTEMPTS && CountQuality(calls) <= QUALITY_MAX_ATTEMPTS
      // the implementer is called first with no fix list, then with the failing review's
      ensures FixListsFlow(calls, agents.specReview, agents.qualityReview)
      // quality review only after the spec review at passAt passed
      ensures QualityAfter(calls, passAt, agents.specReview)
      ensures r.Ok? ==> agents.Latest().Ok? && agents.implemented > old(agents.implemented)
      // the verification gate
      ensures r.Ok? && r.value.finalState == NeedsReview ==>
        r.value.fixIssueId.None? && Fresh(agents.Latest().value) && |writes| >= 2
        && writes[|writes| - 2] == SetStatus(issue.issueId, "needs_review")
        && NoNeedsReview(writes[..|writes| - 2], issue.issueId)
        && CountQuality(calls) >= 1 && calls[|calls| - 1].QualityReview?
        && Passed(agents.qualityReview(calls[|calls| - 1].attempt))
      ensures r.Ok? && r.value.finalState == VerifyFailed ==>
        r.value.fixIssueId.None? && !Fresh(agents.Latest().value) && NoNeedsReview(writes, issue.issueId)
        && calls[|calls| - 1].QualityReview? && Passed(agents.qualityReview(calls[|calls| - 1].attempt))
      // overflow: the fix issue, the link, the original issue to needs_review
      ensures r.Ok? && r.value.finalState == Overflow ==>
        OverflowWrites(r.value, writes, issue, gateway.newFixId)
        && ((calls[|calls| - 1] == SpecReview(SPEC_MAX_ATTEMPTS) && Failed(agents.specReview(SPEC_MAX_ATTEMPTS)))
            || (calls[|calls| - 1] == QualityReview(QUALITY_MAX_ATTEMPTS) && Failed(agents.qualityReview(QUALITY_MAX_ATTEMPTS))))
      // on an exception the session-error snapshot is the last write when it validates
      ensures r.Err? ==>
        var s := Session(issue, if sessionId != "" then sessionId else defaultSessionId, orchestratorId, now, parses);
        EventOk(s, ErrorEvent(pr, message), voc) ==>
          r.error == message && writes[|writes| - 1] == Feedback(issue.issueId, ErrorEvent(pr, message))
      // the review gate: the issue reaches needs_review exactly when the gate snapshot is
      // tried, and the run then succeeds exactly when it validates, else raises its error
      ensures var s := Session(issue, if sessionId != "" then sessionId else defaultSessionId, orchestratorId, now, parses);
        && (gate.None? ==> NoNeedsReview(writes, issue.issueId) && (r.Ok? ==> r.value.finalState == VerifyFailed))
        && (gate.Some? ==>
              && gate.value.stage == "REVIEW_GATE" && gate.value.status == "NEEDS_REVIEW"
              && !NoNeedsReview(writes, issue.issueId)
              && (r.Ok? <==> EventOk(s, gate.value, voc))
              && (!EventOk(s, gate.value, voc) ==> Some(message) == EventRejection(s, gate.value, voc)))
    {
      var s := Session(issue, if sessionId != "" then sessionId else defaultSessionId, orchestratorId, now, parses);
      var pr0;
      r, pr0, calls, writes, passAt, gate := Body(s, prompt, agents);
      pr := pr0;
      message := "";
      if r.Err? {
        message := r.error;
        var e := Snap(s, ErrorEvent(pr0, r.error));
        if e.Some? {
          r := Err(e.value);
        } else {
          writes := writes + [Feedback(issue.issueId, ErrorEvent(pr, message))];
        }
      }
    }

    /** The body of the `try`: everything but the error handler. */
    method Body(s: Session, prompt: string, agents: Agents)
      returns (r: Result<SessionOutcome>, pr: Progress, ghost calls: seq<Call>, ghost writes: seq<Write>,
               ghost passAt: int, ghost gate: Option<Event>)
      modifies gateway, agents
      ensures agents.calls == old(agents.calls) + calls && gateway.writes == old(gateway.writes) + writes
      ensures |writes| >= 1 && writes[0] == SetStatus(s.issue.issueId, "in_progress")
      ensures CallTrail(calls, passAt, agents.specReview, agents.qualityReview)
      ensures r.Ok? ==> agents.Latest().Ok? && agents.implemented > old(agents.implemented)
      ensures r.Ok? && r.value.finalState == NeedsReview ==>
        r.value.fixIssueId.None? && Fresh(agents.Latest().value) && |writes| >= 2
        && writes[|writes| - 2] == SetStatus(s.issue.issueId, "needs_review")
        && NoNeedsReview(writes[..|writes| - 2], s.issue.issueId)
        && CountQuality(calls) >= 1 && calls[|calls| - 1].QualityReview?
        && Passed(agents.qualityReview(calls[|calls| - 1].attempt))
      ensures r.Ok? && r.value.finalState == VerifyFailed ==>
        r.value.fixIssueId.None? && !Fresh(agents.Latest().value) && NoNeedsReview(writes, s.issue.issueId)
        && calls[|calls| - 1].QualityReview? && Passed(agents.qualityReview(calls[|calls| - 1].attempt))
      ensures r.Ok? && r.value.finalState == Overflow ==>
        OverflowWrites(r.value, writes, s.issue, gateway.newFixId)
        && ((calls[|calls| - 1] == SpecReview(SPEC_MAX_ATTEMPTS) && Failed(agents.specReview(SPEC_MAX_ATTEMPTS)))
            || (calls[|calls| - 1] == QualityReview(QUALITY_MAX_ATTEMPTS) && Failed(agents.qualityReview(QUALITY_MAX_ATTEMPTS))))
      ensures GateOutcome(gate, writes, r, s, voc)
    {
      ghost var calls0 := agents.calls;
      ghost var writes0 := gateway.writes;
      passAt := -1;
      gate := None;
      var err;
      err, pr, calls, writes := Start(s, prompt, agents);
      if err.Some? {
        return Err(err.value), pr, calls, writes, passAt, gate;
      }
      var stop;
      stop, pr, calls, writes, gate := SpecPhase(s, prompt, agents, pr, calls0, writes0, calls, writes);
      if stop.Some? {
        return stop.value, pr, calls, writes, passAt, gate;
      }
      passAt := |calls| - 1;
      r, pr, calls, writes, gate := AfterSpecPass(s, prompt, agents, pr, passAt, calls0, writes0, calls, writes);
    }

    /** Once the spec review at `passAt` passed: the quality-review loop, then the
        verification gate. */
    method AfterSpecPass(s: Session, prompt: string, agents: Agents, pr0: Progress, ghost passAt: int,
                         ghost calls0: seq<Call>, ghost writes0: seq<Write>, ghost c: seq<Call>, ghost w: seq<Write>)
      returns (r: Result<SessionOutcome>, pr: Progress, ghost calls: seq<Call>, ghost writes: seq<Write>,
               ghost gate: Option<Event>)
      requires agents.calls == calls0 + c && gateway.writes == writes0 + w
      requires Open(w, s.issue.issueId) && CallTrail(c, -1, agents.specReview, agents.qualityReview)
      requires CountQuality(c) == 0 && pr0.quality == 0 && pr0.spec == CountSpec(c)
      requires LatestIs(pr0, agents) && passAt == |c| - 1 && SpecPassedAt(c, passAt, agents.specReview)
      modifies gateway, agents
      ensures agents.calls == calls0 + calls && gateway.writes == writes0 + writes
      ensures agents.implemented >= old(agents.implemented)
      ensures |writes| >= 1 && writes[0] == SetStatus(s.issue.issueId, "in_progress")
      ensures CallTrail(calls, passAt, agents.specReview, agents.qualityReview)
      ensures r.Ok? ==> agents.Latest().Ok? && agents.implemented > 0
      ensures r.Ok? && r.value.finalState == NeedsReview ==>
        r.value.fixIssueId.None? && Fresh(agents.Latest().value) && |writes| >= 2
        && writes[|writes| - 2] == SetStatus(s.issue.issueId, "needs_review")
        && NoNeedsReview(writes[..|writes| - 2], s.issue.issueId)
        && CountQuality(calls) >= 1 && calls[|calls| - 1].QualityReview?
        && Passed(agents.qualityReview(calls[|calls| - 1].attempt))
      ensures r.Ok? && r.value.finalState == VerifyFailed ==>
        r.value.fixIssueId.None? && !Fresh(agents.Latest().value) && NoNeedsReview(writes, s.issue.issueId)
        && calls[|calls| - 1].QualityReview? && Passed(agents.qualityReview(calls[|calls| - 1].attempt))
      ensures r.Ok? && r.value.finalState == Overflow ==>
        OverflowWrites(r.value, writes, s.issue, gateway.newFixId)
        && calls[|calls| - 1] == QualityReview(QUALITY_MAX_ATTEMPTS) && Failed(agents.qualityReview(QUALITY_MAX_ATTEMPTS))
      ensures GateOutcome(gate, writes, r, s, voc)
    {
      var stop;
      stop, pr, calls, writes, gate := QualityPhase(s, prompt, agents, pr0, passAt, calls0, writes0, c, w);
      if stop.Some? {
        return stop.value, pr, calls, writes, gate;
      }
      r, writes, gate := Finish(s, agents, pr, writes0, writes);
    }

    /** Before the reviews: the issue to in_progress, the first implementation and its
        snapshot. */
    method Start(s: Session, prompt: string, agents: Agents)
      returns (err: Option<string>, pr: Progress, ghost calls: seq<Call>, ghost writes: seq<Write>)
      modifies gateway, agents
      ensures agents.calls == old(agents.calls) + calls && gateway.writes == old(gateway.writes) + writes
      ensures agents.implemented == old(agents.implemented) + 1
      ensures calls == [Implement(None)] && |writes| >= 1 && writes[0] == SetStatus(s.issue.issueId, "in_progress")
      ensures pr.spec == 0 && pr.quality == 0
      ensures agents.Latest().Err? ==> err == Some(agents.Latest().error) && pr.latest.None? && writes == [writes[0]]
      ensures err.Some? ==> writes == [SetStatus(s.issue.issueId, "in_progress")]
      ensures err.None? ==>
        LatestIs(pr, agents) && Open(writes, s.issue.issueId)
        && writes == [SetStatus(s.issue.issueId, "in_progress"),
                      Feedback(s.issue.issueId, Event("IMPLEMENT_DONE", "RUNNING", "PASS", 0, 0, [], [],
                                                      agents.Latest().value.verification))]
    {
      pr := Progress(0, 0, None);
      gateway.SetIssueStatus(s.issue.issueId, "in_progress");
      writes := [SetStatus(s.issue.issueId, "in_progress")];
      var first := agents.CallImplementer(prompt, None);
      calls := [Implement(None)];
      if first.Err? {
        return Some(first.error), pr, calls, writes;
      }
      pr := pr.(latest := Some(first.value));
      var e := Snap(s, Event("IMPLEMENT_DONE", "RUNNING", "PASS", 0, 0, [], [], first.value.verification));
      if e.Some? {
        return e, pr, calls, writes;
      }
      writes := writes + [Feedback(s.issue.issueId, Event("IMPLEMENT_DONE", "RUNNING", "PASS", 0, 0, [], [], first.value.verification))];
      err := None;
    }

    /** The spec-review loop: review; on a pass go on to quality review; after the
        last allowed failure overflow; otherwise implement the fix list and review
        again. */
    method SpecPhase(s: Session, prompt: string, agents: Agents, pr0: Progress,
                     ghost calls0: seq<Call>, ghost writes0: seq<Write>, ghost c: seq<Call>, ghost w: seq<Write>)
      returns (stop: Option<Result<SessionOutcome>>, pr: Progress, ghost calls: seq<Call>, ghost writes: seq<Write>,
               ghost gate: Option<Event>)
      requires agents.calls == calls0 + c && gateway.writes == writes0 + w
      requires c == [Implement(None)] && Open(w, s.issue.issueId)
      requires pr0.spec == 0 && pr0.quality == 0 && LatestIs(pr0, agents)
      modifies gateway, agents
      ensures agents.calls == calls0 + calls && gateway.writes == writes0 + writes
      ensures agents.implemented >= old(agents.implemented)
      ensures |writes| >= 1 && writes[0] == SetStatus(s.issue.issueId, "in_progress")
      ensures CallTrail(calls, -1, agents.specReview, agents.qualityReview)
      ensures stop.None? ==>
        Open(writes, s.issue.issueId) && CountQuality(calls) == 0 && pr.quality == 0
        && pr.spec == CountSpec(calls) && LatestIs(pr, agents) && SpecPassedAt(calls, |calls| - 1, agents.specReview)
      ensures stop.Some? && stop.value.Ok? ==>
        agents.Latest().Ok? && agents.implemented > 0 && OverflowWrites(stop.value.value, writes, s.issue, gateway.newFixId)
        && calls[|calls| - 1] == SpecReview(SPEC_MAX_ATTEMPTS) && Failed(agents.specReview(SPEC_MAX_ATTEMPTS))
      ensures stop.None? ==> gate.None?
      ensures stop.Some? ==> GateOutcome(gate, writes, stop.value, s, voc)
    {
      pr := pr0;
      calls := c;
      writes := w;
      gate := None;
      while true
        invariant agents.calls == calls0 + calls && gateway.writes == writes0 + writes
        invariant agents.implemented >= old(agents.implemented)
        invariant Open(writes, s.issue.issueId) && CallTrail(calls, -1, agents.specReview, agents.qualityReview)
        invariant 0 <= pr.spec < SPEC_MAX_ATTEMPTS && CountSpec(calls) == pr.spec
        invariant CountQuality(calls) == 0 && pr.quality == 0
        invariant calls[|calls| - 1].Implement? && LatestIs(pr, agents)
        decreases SPEC_MAX_ATTEMPTS - pr.spec
      {
        pr := pr.(spec := pr.spec + 1);
        var v;
        v, calls, writes := SpecReviewStep(s, prompt, agents, pr, calls0, writes0, calls, writes);
        if v.Raised? {
          return Some(Err(v.error)), pr, calls, writes, gate;
        }
        if v.Accepted? {
          return None, pr, calls, writes, gate;
        }
        if pr.spec >= SPEC_MAX_ATTEMPTS {
          var o;
          o, writes, gate := HandleOverflow(s, OverflowReason("SPEC_REVIEW", pr.spec, SPEC_MAX_ATTEMPTS),
                                            v.review.failedItems, pr.latest.value.verification, pr, writes0, writes);
          return Some(o), pr, calls, writes, gate;
        }
        var err;
        err, pr, calls, writes := FixStep(s, prompt, agents, pr, v.review.fixList, "SPEC_FIX_APPLIED", "SPEC_FIX",
                                          -1, calls0, writes0, calls, writes);
        if err.Some? {
          return Some(Err(err.value)), pr, calls, writes, gate;
        }
      }
    }

    /** One spec review and its snapshot. */
    method SpecReviewStep(s: Session, prompt: string, agents: Agents, pr: Progress,
                          ghost calls0: seq<Call>, ghost writes0: seq<Write>, ghost c: seq<Call>, ghost w: seq<Write>)
      returns (v: Verdict, ghost calls: seq<Call>, ghost writes: seq<Write>)
      requires agents.calls == calls0 + c && gateway.writes == writes0 + w
      requires Open(w, s.issue.issueId) && CallTrail(c, -1, agents.specReview, agents.qualityReview)
      requires CountSpec(c) + 1 == pr.spec <= SPEC_MAX_ATTEMPTS && LatestIs(pr, agents)
      modifies gateway, agents
      ensures agents.calls == calls0 + calls && gateway.writes == writes0 + writes
      ensures calls == c + [SpecReview(pr.spec)] && LatestIs(pr, agents) && agents.implemented == old(agents.implemented)
      ensures CallTrail(calls, -1, agents.specReview, agents.qualityReview)
      ensures CountSpec(calls) == pr.spec && CountQuality(calls) == CountQuality(c)
      ensures v.Raised? ==> writes == w
      ensures !v.Raised? ==> agents.specReview(pr.spec).Ok? && writes == w + [Feedback(s.issue.issueId, ReviewEvent(false, pr, agents.specReview(pr.spec).value))]
      ensures Open(writes, s.issue.issueId)
      ensures v.Accepted? ==> Passed(agents.specReview(pr.spec))
      ensures v.Rejected? ==> agents.specReview(pr.spec) == Ok(v.review) && !v.review.passed
    {
      var review := agents.CallSpecReviewer(prompt, pr.latest.value, pr.spec);
      TrailAppendReview(c, agents.specReview, agents.qualityReview, SpecReview(pr.spec));
      calls := c + [SpecReview(pr.spec)];
      writes := w;
      if review.Err? {
        return Raised(review.error), calls, writes;
      }
      var e := Snap(s, ReviewEvent(false, pr, review.value));
      if e.Some? {
        return Raised(e.value), calls, writes;
      }
      writes := w + [Feedback(s.issue.issueId, ReviewEvent(false, pr, review.value))];
      v := if review.value.passed then Accepted else Rejected(review.value);
    }

    /** The implementer on a failed review's fix list, and its snapshot. `next` is
        `pr` with the new implementation when the implementer answered. */
    method FixStep(s: Session, prompt: string, agents: Agents, pr: Progress, fixList: seq<string>,
                   eventType: string, stage: string, ghost passAt: int,
                   ghost calls0: seq<Call>, ghost writes0: seq<Write>, ghost c: seq<Call>, ghost w: seq<Write>)
      returns (err: Option<string>, next: Progress, ghost calls: seq<Call>, ghost writes: seq<Write>)
      requires agents.calls == calls0 + c && gateway.writes == writes0 + w
      requires Open(w, s.issue.issueId) && CallTrail(c, passAt, agents.specReview, agents.qualityReview)
      requires |c| >= 1 && FixFrom(c[|c| - 1], Some(fixList), agents.specReview, agents.qualityReview)
      modifies gateway, agents
      ensures agents.calls == calls0 + calls && gateway.writes == writes0 + writes && Open(writes, s.issue.issueId)
      ensures calls == c + [Implement(Some(fixList))] && CallTrail(calls, passAt, agents.specReview, agents.qualityReview)
      ensures CountSpec(calls) == CountSpec(c) && CountQuality(calls) == CountQuality(c)
      ensures agents.implemented == old(agents.implemented) + 1
      ensures agents.Latest().Err? ==> next == pr && err == Some(agents.Latest().error) && writes == w
      ensures agents.Latest().Ok? ==> next == pr.(latest := Some(agents.Latest().value)) && LatestIs(next, agents)
      ensures err.None? ==>
        writes == w + [Feedback(s.issue.issueId, Event(eventType, stage, "PASS", pr.spec, pr.quality, [], [],
                                                   agents.Latest().value.verification))]
      ensures err.Some? ==> writes == w
    {
      var result := agents.CallImplementer(prompt, Some(fixList));
      TrailAppendFix(c, passAt, agents.specReview, agents.qualityReview, fixList);
      calls := c + [Implement(Some(fixList))];
      writes := w;
      next := pr;
      if result.Err? {
        return Some(result.error), next, calls, writes;
      }
      next := pr.(latest := Some(result.value));
      var e := Snap(s, Event(eventType, stage, "PASS", pr.spec, pr.quality, [], [], result.value.verification));
      if e.Some? {
        return e, next, calls, writes;
      }
      writes := w + [Feedback(s.issue.issueId, Event(eventType, stage, "PASS", pr.spec, pr.quality, [], [],
                                                 result.value.verification))];
      err := None;
    }

    /** The quality-review loop, entered only after the spec review at `passAt` passed. */
    method QualityPhase(s: Session, prompt: string, agents: Agents, pr0: Progress, ghost passAt: int,
                        ghost calls0: seq<Call>, ghost writes0: seq<Write>, ghost c: seq<Call>, ghost w: seq<Write>)
      returns (stop: Option<Result<SessionOutcome>>, pr: Progress, ghost calls: seq<Call>, ghost writes: seq<Write>,
               ghost gate: Option<Event>)
      requires agents.calls == calls0 + c && gateway.writes == writes0 + w
      requires Open(w, s.issue.issueId) && CallTrail(c, -1, agents.specReview, agents.qualityReview)
      requires CountQuality(c) == 0 && pr0.quality == 0 && pr0.spec == CountSpec(c)
      requires LatestIs(pr0, agents) && passAt == |c| - 1 && SpecPassedAt(c, passAt, agents.specReview)
      modifies gateway, agents
      ensures agents.calls == calls0 + calls && gateway.writes == writes0 + writes
      ensures agents.implemented >= old(agents.implemented)
      ensures |writes| >= 1 && writes[0] == SetStatus(s.issue.issueId, "in_progress")
      ensures CallTrail(calls, passAt, agents.specReview, agents.qualityReview)
      ensures stop.None? ==>
        Open(writes, s.issue.issueId) && LatestIs(pr, agents) && CountQuality(calls) >= 1
        && calls[|calls| - 1].QualityReview? && Passed(agents.qualityReview(calls[|calls| - 1].attempt))
      ensures stop.Some? && stop.value.Ok? ==>
        agents.Latest().Ok? && agents.implemented > 0 && OverflowWrites(stop.value.value, writes, s.issue, gateway.newFixId)
        && calls[|calls| - 1] == QualityReview(QUALITY_MAX_ATTEMPTS) && Failed(agents.qualityReview(QUALITY_MAX_ATTEMPTS))
      ensures stop.None? ==> gate.None?
      ensures stop.Some? ==> GateOutcome(gate, writes, stop.value, s, voc)
    {
      pr := pr0;
      calls := c;
      writes := w;
      gate := None;
      QualityAfterNone(c, passAt, agents.specReview);
      while true
        invariant agents.calls == calls0 + calls && gateway.writes == writes0 + writes
        invariant agents.implemented >= old(agents.implemented)
        invariant Open(writes, s.issue.issueId) && CallTrail(calls, passAt, agents.specReview, agents.qualityReview)
        invariant 0 <= pr.quality < QUALITY_MAX_ATTEMPTS && CountQuality(calls) == pr.quality
        invariant LatestIs(pr, agents) && SpecPassedAt(calls, passAt, agents.specReview)
        decreases QUALITY_MAX_ATTEMPTS - pr.quality
      {
        pr := pr.(quality := pr.quality + 1);
        var v;
        v, calls, writes := QualityReviewStep(s, prompt, agents, pr, passAt, calls0, writes0, calls, writes);
        if v.Raised? {
          return Some(Err(v.error)), pr, calls, writes, gate;
        }
        if v.Accepted? {
          return None, pr, calls, writes, gate;
        }
        if pr.quality >= QUALITY_MAX_ATTEMPTS {
          var o;
          o, writes, gate := HandleOverflow(s, OverflowReason("QUALITY_REVIEW", pr.quality, QUALITY_MAX_ATTEMPTS),
                                            v.review.failedItems, pr.latest.value.verification, pr, writes0, writes);
          return Some(o), pr, calls, writes, gate;
        }
        var err;
        ghost var before := calls;
        err, pr, calls, writes := FixStep(s, prompt, agents, pr, v.review.fixList, "QUALITY_FIX_APPLIED", "QUALITY_FIX",
                                          passAt, calls0, writes0, calls, writes);
        assert calls[passAt] == before[passAt];
        if err.Some? {
          return Some(Err(err.value)), pr, calls, writes, gate;
        }
      }
    }

    /** One quality review and its snapshot. */
    method QualityReviewStep(s: Session, prompt: string, agents: Agents, pr: Progress, ghost passAt: int,
                             ghost calls0: seq<Call>, ghost writes0: seq<Write>, ghost c: seq<Call>, ghost w: seq<Write>)
      returns (v: Verdict, ghost calls: seq<Call>, ghost writes: seq<Write>)
      requires agents.calls == calls0 + c && gateway.writes == writes0 + w
      requires Open(w, s.issue.issueId) && CallTrail(c, passAt, agents.specReview, agents.qualityReview)
      requires SpecPassedAt(c, passAt, agents.specReview)
      requires CountQuality(c) + 1 == pr.quality <= QUALITY_MAX_ATTEMPTS && LatestIs(pr, agents)
      modifies gateway, agents
      ensures agents.calls == calls0 + calls && gateway.writes == writes0 + writes
      ensures calls == c + [QualityReview(pr.quality)] && LatestIs(pr, agents) && agents.implemented == old(agents.implemented)
      ensures CallTrail(calls, passAt, agents.specReview, agents.qualityReview) && SpecPassedAt(calls, passAt, agents.specReview)
      ensures CountQuality(calls) == pr.quality && CountSpec(calls) == CountSpec(c)
      ensures v.Raised? ==> writes == w
      ensures !v.Raised? ==> agents.qualityReview(pr.quality).Ok? && writes == w + [Feedback(s.issue.issueId, ReviewEvent(true, pr, agents.qualityReview(pr.quality).value))]
      ensures Open(writes, s.issue.issueId)
      ensures v.Accepted? ==> Passed(agents.qualityReview(pr.quality))
      ensures v.Rejected? ==> agents.qualityReview(pr.quality) == Ok(v.review) && !v.review.passed
    {
      var review := agents.CallQualityReviewer(prompt, pr.latest.value, pr.quality);
      TrailAppendQuality(c, passAt, agents.specReview, agents.qualityReview, pr.quality);
      calls := c + [QualityReview(pr.quality)];
      writes := w;
      if review.Err? {
        return Raised(review.error), calls, writes;
      }
      var e := Snap(s, ReviewEvent(true, pr, review.value));
      if e.Some? {
        return Raised(e.value), calls, writes;
      }
      writes := w + [Feedback(s.issue.issueId, ReviewEvent(true, pr, review.value))];
      v := if review.value.passed then Accepted else Rejected(review.value);
    }

    /** After both reviews passed: the verification gate. */
    method Finish(s: Session, agents: Agents, pr: Progress, ghost writes0: seq<Write>, ghost w: seq<Write>)
      returns (r: Result<SessionOutcome>, ghost writes: seq<Write>, ghost gate: Option<Event>)
      requires gateway.writes == writes0 + w && LatestIs(pr, agents) && Open(w, s.issue.issueId)
      modifies gateway
      ensures gateway.writes == writes0 + writes && |writes| >= 1 && writes[0] == SetStatus(s.issue.issueId, "in_progress")
      ensures r.Ok? ==> r.value.fixIssueId.None? && r.value.finalState != Overflow
      ensures r.Ok? && r.value.finalState == NeedsReview ==>
        Fresh(agents.Latest().value) && |writes| >= 2
        && writes[|writes| - 2] == SetStatus(s.issue.issueId, "needs_review")
        && NoNeedsReview(writes[..|writes| - 2], s.issue.issueId)
      ensures r.Ok? && r.value.finalState == VerifyFailed ==>
        !Fresh(agents.Latest().value) && NoNeedsReview(writes, s.issue.issueId)
      ensures gate.Some? <==> Fresh(agents.Latest().value)
      ensures GateOutcome(gate, writes, r, s, voc)
    {
      writes := w;
      gate := None;
      var latest := pr.latest.value;
      if !Fresh(latest) {
        var e := Snap(s, Event("VERIFY_FAILED", "VERIFICATION", "VERIFY_FAILED", pr.spec, pr.quality, [], [], latest.verification));
        if e.Some? {
          return Err(e.value), writes, gate;
        }
        writes := writes + [gateway.writes[|gateway.writes| - 1]];
        return Ok(SessionOutcome(VerifyFailed, None)), writes, gate;
      }
      gateway.SetIssueStatus(s.issue.issueId, "needs_review");
      writes := writes + [SetStatus(s.issue.issueId, "needs_review")];
      var done := Event("SESSION_DONE", "REVIEW_GATE", "NEEDS_REVIEW", pr.spec, pr.quality, [], [], latest.verification);
      gate := Some(done);
      var e := Snap(s, done);
      if e.Some? {
        return Err(e.value), writes, gate;
      }
      writes := writes + [gateway.writes[|gateway.writes| - 1]];
      assert writes[..|writes| - 2] == w;
      return Ok(SessionOutcome(NeedsReview, None)), writes, gate;
    }

    /** `_handle_overflow`: create the fix issue, link it, move the original issue to
        needs_review and record the overflow. */
    method HandleOverflow(s: Session, reason: string, failed: seq<string>, verification: Option<Verification>,
                          pr: Progress, ghost writes0: seq<Write>, ghost w: seq<Write>)
      returns (r: Result<SessionOutcome>, ghost writes: seq<Write>, ghost gate: Option<Event>)
      requires gateway.writes == writes0 + w && Open(w, s.issue.issueId)
      modifies gateway
      ensures gateway.writes == writes0 + writes && |writes| >= 1 && writes[0] == SetStatus(s.issue.issueId, "in_progress")
      ensures r.Ok? ==> OverflowWrites(r.value, writes, s.issue, gateway.newFixId)
      ensures r.Ok? ==> writes[|writes| - 1] == Feedback(s.issue.issueId,
        Event("OVERFLOW_FIX_CREATED", "REVIEW_GATE", "NEEDS_REVIEW", pr.spec, pr.quality, failed, [reason], verification))
      ensures gate.Some? <==> gateway.newFixId.Ok?
      ensures GateOutcome(gate, writes, r, s, voc)
    {
      var fixId;
      gate := None;
      fixId, writes := CreateOverflowFix(s.issue, reason, failed, verification, writes0, w);
      if fixId.Err? {
        return Err(fixId.error), writes, gate;
      }
      assert writes[|writes| - 1] == SetStatus(s.issue.issueId, "needs_review");
      var created := Event("OVERFLOW_FIX_CREATED", "REVIEW_GATE", "NEEDS_REVIEW", pr.spec, pr.quality,
                           failed, [reason], verification);
      gate := Some(created);
      var e := Snap(s, created);
      if e.Some? {
        return Err(e.value), writes, gate;
      }
      ghost var before := writes;
      writes := writes + [gateway.writes[|gateway.writes| - 1]];
      assert writes[..|writes| - 1] == before;
      return Ok(SessionOutcome(Overflow, Some(fixId.value))), writes, gate;
    }

    /** The fix issue of an overflow, its link to the original and the original's move
        to `needs_review`; a failed creation stops after the creation. */
    method CreateOverflowFix(issue: IssueContext, reason: string, failed: seq<string>,
                             verification: Option<Verification>, ghost writes0: seq<Write>, ghost w: seq<Write>)
      returns (fixId: Result<string>, ghost writes: seq<Write>)
      requires gateway.writes == writes0 + w && Open(w, issue.issueId)
      modifies gateway
      ensures fixId == gateway.newFixId && gateway.writes == writes0 + writes
      ensures |writes| >= 1 && writes[0] == SetStatus(issue.issueId, "in_progress")
      ensures var create := CreateFix(FixTitle(issue), FixIssueBody(issue, reason, failed, verification));
        if fixId.Err? then writes == w + [create] && Open(writes, issue.issueId)
        else writes == w + [create, Link(issue.issueId, fixId.value, "depends-on"),
                            SetStatus(issue.issueId, "needs_review")]
    {
      writes := w;
      var title := FixTitle(issue);
      var body := FixIssueBody(issue, reason, failed, verification);
      fixId := gateway.CreateFixIssue(title, body);
      writes := writes + [CreateFix(title, body)];
      if fixId.Err? {
        return;
      }
      gateway.LinkIssues(issue.issueId, fixId.value, "depends-on");
      gateway.SetIssueStatus(issue.issueId, "needs_review");
      writes := writes + [Link(issue.issueId, fixId.value, "depends-on"), SetStatus(issue.issueId, "needs_review")];
    }
  }

  /** `pr.latest` is the answer of the last implementer call. */
  ghost predicate LatestIs(pr: Progress, agents: Agents)
    reads agents
  {
    agents.implemented > 0 && agents.Latest().Ok? && pr.latest == Some(agents.Latest().value)
  }

  /** The writes an overflow ends with: the fix issue, the link, the original issue to
      needs_review, the overflow snapshot; nothing before moved it to needs_review. */
  ghost predicate OverflowWrites(o: SessionOutcome, writes: seq<Write>, issue: IssueContext, newFixId: Result<string>) {
    o.finalState == Overflow && newFixId.Ok? && o.fixIssueId == Some(newFixId.value) && |writes| >= 4
    && writes[|writes| - 4].CreateFix? && writes[|writes| - 4].title == FixTitle(issue)
    && writes[|writes| - 3] == Link(issue.issueId, newFixId.value, "depends-on")
    && writes[|writes| - 2] == SetStatus(issue.issueId, "needs_review")
    && NoNeedsReview(writes[..|writes| - 4], issue.issueId)
  }

  /** With no quality review yet (`passAt` -1 admits none), any index will do. */
  lemma QualityAfterNone(d: seq<Call>, passAt: int, spec: nat -> Result<ReviewResult>)
    requires QualityAfter(d, -1, spec)
    ensures QualityAfter(d, passAt, spec)
  {
  }

  lemma TrailAppendReview(d: seq<Call>, spec: nat -> Result<ReviewResult>, quality: nat -> Result<ReviewResult>, c: Call)
    requires CallTrail(d, -1, spec, quality) && c.SpecReview? && CountSpec(d) < SPEC_MAX_ATTEMPTS
    ensures CallTrail(d + [c], -1, spec, quality)
    ensures CountSpec(d + [c]) == CountSpec(d) + 1 && CountQuality(d + [c]) == CountQuality(d)
  {
    CountsAppend(d, c);
    FixesFollowAppend(d, spec, quality, c);
  }

  lemma TrailAppendQuality(d: seq<Call>, passAt: int, spec: nat -> Result<ReviewResult>, quality: nat -> Result<ReviewResult>, a: nat)
    requires CallTrail(d, passAt, spec, quality) && SpecPassedAt(d, passAt, spec)
    requires CountQuality(d) < QUALITY_MAX_ATTEMPTS
    ensures CallTrail(d + [QualityReview(a)], passAt, spec, quality) && SpecPassedAt(d + [QualityReview(a)], passAt, spec)
    ensures CountQuality(d + [QualityReview(a)]) == CountQuality(d) + 1 && CountSpec(d + [QualityReview(a)]) == CountSpec(d)
  {
    CountsAppend(d, QualityReview(a));
    FixesFollowAppend(d, spec, quality, QualityReview(a));
    var e := d + [QualityReview(a)];
    assert e[passAt] == d[passAt];
  }

  lemma TrailAppendFix(d: seq<Call>, passAt: int, spec: nat -> Result<ReviewResult>, quality: nat -> Result<ReviewResult>, fix: seq<string>)
    requires CallTrail(d, passAt, spec, quality) && |d| >= 1
    requires FixFrom(d[|d| - 1], Some(fix), spec, quality)
    ensures CallTrail(d + [Implement(Some(fix))], passAt, spec, quality)
    ensures CountSpec(d + [Implement(Some(fix))]) == CountSpec(d) && CountQuality(d + [Implement(Some(fix))]) == CountQuality(d)
  {
    CountsAppend(d, Implement(Some(fix)));
    FixesFollowAppend(d, spec, quality, Implement(Some(fix)));
    var e := d + [Implement(Some(fix))];
    forall j | 0 <= j < |e| && e[j].QualityReview?
      ensures passAt < j && SpecPassedAt(e, passAt, spec)
    {
      assert e[j] == d[j];
      assert e[passAt] == d[passAt];
    }
  }
}

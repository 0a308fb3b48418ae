/** Claiming an issue: it is moved to `in_progress` and a session-start snapshot is
    added as feedback, under a session id derived from the issue id. */
module Claim {
  import opened Common
  import opened Snapshot
  import opened Models
  import opened SessionLoop

  const IN_PROGRESS := "in_progress"
  const BLANK_SESSION_ID := "Invalid session_id: must be non-empty string"
  const BAD_TIMESTAMP := "Invalid timestamp: must be ISO-8601 UTC string"

  datatype ClaimResult = ClaimResult(issueId: string, sessionId: string)

  /** The session-start snapshot's event: no attempts, empty lists, no verification. */
  function StartEvent(): Event {
    Event("SESSION_START", "RUNNING", "START", 0, 0, [], [], None)
  }

  /** The snapshot fields `claim_issue` fills from its arguments. The snapshot reads
      only the issue's id and task id, so the other issue fields are left blank. */
  function ClaimSession(issueId: string, taskId: string, orchestratorId: string, sessionId: string,
                        now: string, parses: string -> bool): Session {
    Session(IssueContext(issueId, "", taskId, "", "", "", "", ""), sessionId, orchestratorId, now, parses)
  }

  /** Why validation rejects the claim snapshot of `s`, if it does: only the session id
      and the clock's text can be wrong, and the session id is checked first. */
  function ClaimRejection(s: Session): (r: Option<string>)
    ensures r.None? <==> !IsBlank(s.sessionId) && UtcTimestamp(s.now, s.parses)
  {
    if IsBlank(s.sessionId) then Some(BLANK_SESSION_ID)
    else if !UtcTimestamp(s.now, s.parses) then Some(BAD_TIMESTAMP)
    else None
  }

  /** Validating the claim snapshot reports exactly `ClaimRejection`, under the
      enumerations as written and as corrected alike. */
  lemma ClaimRejectionExact(s: Session, voc: Vocabulary)
    requires voc == AS_WRITTEN || voc == CORRECTED
    ensures EventRejection(s, StartEvent(), voc) == ClaimRejection(s)
  {
    assert "SESSION_START" in voc.eventTypes && "RUNNING" in voc.stages && "START" in voc.statuses;
  }

  /** `claim_issue`: the status write comes first, then the one snapshot; a snapshot
      that does not validate raises after the status write. `makeSessionId` is the
      session-id factory (by default a name-based UUID of the issue id) and `now` the
      clock's text. */
  method ClaimIssue(issueId: string, taskId: string, orchestratorId: string, gateway: Gateway,
                    voc: Vocabulary, makeSessionId: string -> string, now: string, parses: string -> bool)
    returns (r: Result<ClaimResult>)
    requires voc == AS_WRITTEN || voc == CORRECTED
    modifies gateway`writes
    ensures var s := ClaimSession(issueId, taskId, orchestratorId, makeSessionId(issueId), now, parses);
      (r.Ok? <==> EventOk(s, StartEvent(), voc))
      && (r.Ok? ==> r.value == ClaimResult(issueId, makeSessionId(issueId))
                    && gateway.writes == old(gateway.writes) + [SetStatus(issueId, IN_PROGRESS), Feedback(issueId, StartEvent())])
      && (r.Err? ==> Some(r.error) == ClaimRejection(s)
                     && gateway.writes == old(gateway.writes) + [SetStatus(issueId, IN_PROGRESS)])
  {
    var sessionId := makeSessionId(issueId);
    gateway.SetIssueStatus(issueId, IN_PROGRESS);
    var s := ClaimSession(issueId, taskId, orchestratorId, sessionId, now, parses);
    var err := EmitSnapshot(gateway, s, StartEvent(), voc);
    ClaimRejectionExact(s, voc);
    if err.Some? {
      return Err(err.value);
    }
    r := Ok(ClaimResult(issueId, sessionId));
  }

  /** The claim snapshot carries the snapshot schema version, the session id that
      `claim_issue` returns, the start event with zero attempts, empty lists and no
      verification, and the issue and task ids. */
  lemma ClaimSnapshotShape(issueId: string, taskId: string, orchestratorId: string, sessionId: string,
                           now: string, parses: string -> bool)
    ensures var p := SnapshotOf(ClaimSession(issueId, taskId, orchestratorId, sessionId, now, parses), StartEvent());
      p["schema_version"] == JStr(SCHEMA_VERSION) && p["session_id"] == JStr(sessionId)
      && p["issue_id"] == JStr(issueId) && p["task_id"] == JStr(taskId)
      && p["event_type"] == JStr("SESSION_START") && p["stage"] == JStr("RUNNING") && p["status"] == JStr("START")
      && p["attempts"] == JObj(map["spec" := JInt(0), "quality" := JInt(0)])
      && p["failed_items"] == JList([]) && p["fix_list"] == JList([]) && p["verify"] == JNull
  {
  }

  /** The claim snapshot validates exactly when the session id is not blank and the
      clock's text is a UTC timestamp, under the enumerations as written and as
      corrected alike. */
  lemma StartEventOk(s: Session)
    ensures EventOk(s, StartEvent(), AS_WRITTEN) <==> !IsBlank(s.sessionId) && UtcTimestamp(s.now, s.parses)
    ensures EventOk(s, StartEvent(), CORRECTED) <==> !IsBlank(s.sessionId) && UtcTimestamp(s.now, s.parses)
  {
    assert "SESSION_START" in AS_WRITTEN.eventTypes && "RUNNING" in AS_WRITTEN.stages && "START" in AS_WRITTEN.statuses;
    assert "SESSION_START" in CORRECTED.eventTypes && "RUNNING" in CORRECTED.stages && "START" in CORRECTED.statuses;
  }
}

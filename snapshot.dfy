// The loop-snapshot record a session writes as issue feedback, and its validator:
// snapshot.py.

module Snapshot {
  import opened Common

  const SCHEMA_VERSION := "loop_snapshot.v1"

  const REQUIRED_FIELDS: set<string> := {
    "schema_version", "session_id", "orchestrator_id", "issue_id", "task_id",
    "event_type", "stage", "status", "attempts", "failed_items", "fix_list",
    "verify", "timestamp"
  }

  /** The top-level fields that must hold text. The source keeps them in a set, whose
      iteration order Python leaves unspecified; the model checks them in this order. */
  const STRING_FIELDS: seq<string> := [
    "schema_version", "session_id", "orchestrator_id", "issue_id", "task_id",
    "event_type", "stage", "status", "timestamp"
  ]

  const ATTEMPT_FIELDS: set<string> := {"spec", "quality"}
  const VERIFY_FIELDS: set<string> := {"command", "exit_code", "produced_at", "output_ref"}

  /** The three enumerations a snapshot's `event_type`, `stage` and `status` must
      belong to. */
  datatype Vocabulary = Vocabulary(eventTypes: set<string>, stages: set<string>, statuses: set<string>)

  const EVENT_TYPES: set<string> := {
    "SESSION_START", "IMPLEMENT_DONE", "SPEC_REVIEW_PASS", "SPEC_REVIEW_FAIL",
    "SPEC_FIX_APPLIED", "QUALITY_REVIEW_PASS", "QUALITY_REVIEW_FAIL",
    "QUALITY_FIX_APPLIED", "OVERFLOW_FIX_CREATED", "VERIFY_FAILED", "SESSION_DONE",
    "SESSION_ERROR"
  }

  /** The enumerations as snapshot.py writes them: neither the `REVIEW_GATE` stage nor
      the `NEEDS_REVIEW` status is there. */
  const AS_WRITTEN := Vocabulary(
    EVENT_TYPES,
    {"RUNNING", "SPEC_REVIEW", "SPEC_FIX", "QUALITY_REVIEW", "QUALITY_FIX", "VERIFICATION", "OVERFLOW", "DONE"},
    {"START", "PASS", "FAIL", "FIX_CREATED", "VERIFY_FAILED"})

  /** The enumerations with the review-gate stage and status that the session loop
      writes and the merge closer looks for. */
  const CORRECTED := Vocabulary(
    AS_WRITTEN.eventTypes, AS_WRITTEN.stages + {"REVIEW_GATE"}, AS_WRITTEN.statuses + {"NEEDS_REVIEW"})

  // ---------------------------------------------------------------------------
  // Timestamps

  /** `ISO_8601_UTC_PATTERN`: `dddd-dd-ddTdd:dd:dd`, an optional fraction, then `Z`
      or `+00:00`. */
  predicate MatchesUtcPattern(s: string) {
    MatchesFrom(s, 0)
  }

  /** `t`, read from position `i` of the pattern on, fits the rest of
      `dddd-dd-ddTdd:dd:dd` and then the fraction and zone. */
  predicate MatchesFrom(t: string, i: nat)
    decreases |t|
  {
    if i >= 19 then FractionThenZone(t)
    else t != [] && FitsPosition(i, t[0]) && MatchesFrom(t[1..], i + 1)
  }

  /** The character class of position `i` of `dddd-dd-ddTdd:dd:dd`. */
  predicate FitsPosition(i: nat, c: char) {
    if i == 4 || i == 7 then c == '-'
    else if i == 10 then c == 'T'
    else if i == 13 || i == 16 then c == ':'
    else IsAsciiDigit(c)
  }

  predicate UtcZone(t: string) {
    t == "Z" || t == "+00:00"
  }

  predicate FractionThenZone(t: string) {
    UtcZone(t) || (|t| >= 2 && t[0] == '.' && IsAsciiDigit(t[1]) && DigitsThenZone(t[2..]))
  }

  predicate DigitsThenZone(t: string)
    decreases |t|
  {
    UtcZone(t) || (t != [] && IsAsciiDigit(t[0]) && DigitsThenZone(t[1..]))
  }

  /** `_parse_iso_utc` does not raise: the text matches the pattern and `parses` (the
      calendar check of `datetime.fromisoformat`) accepts it. Past the pattern the
      offset is always zero, so the time-zone checks cannot fail. */
  predicate UtcTimestamp(s: string, parses: string -> bool) {
    MatchesUtcPattern(s) && parses(s)
  }

  /** `_is_strict_int`: an int that is not a bool. */
  predicate IsStrictInt(v: Json) {
    v.JInt?
  }

  // ---------------------------------------------------------------------------
  // What a valid snapshot is

  predicate StrList(v: Json) {
    v.JList? && forall i :: 0 <= i < |v.items| ==> v.items[i].JStr?
  }

  predicate Count(m: map<string, Json>, name: string) {
    name in m && IsStrictInt(m[name]) && m[name].n >= 0
  }

  predicate VerifyWellFormed(v: Json, parses: string -> bool) {
    v.JObj?
    && v.fields.Keys <= VERIFY_FIELDS
    && "command" in v.fields && v.fields["command"].JStr?
    && Count(v.fields, "exit_code")
    && "produced_at" in v.fields && v.fields["produced_at"].JStr?
    && UtcTimestamp(v.fields["produced_at"].s, parses)
    && ("output_ref" in v.fields ==> v.fields["output_ref"].JStr?)
  }

  /** A snapshot `validate_snapshot` accepts under the vocabulary `voc`. */
  predicate WellFormed(p: map<string, Json>, voc: Vocabulary, parses: string -> bool) {
    p.Keys == REQUIRED_FIELDS
    && (forall i :: 0 <= i < |STRING_FIELDS| ==> p[STRING_FIELDS[i]].JStr?)
    && p["schema_version"] == JStr(SCHEMA_VERSION)
    && p["session_id"].JStr? && !IsBlank(p["session_id"].s)
    && p["event_type"].JStr? && p["event_type"].s in voc.eventTypes
    && p["stage"].JStr? && p["stage"].s in voc.stages
    && p["status"].JStr? && p["status"].s in voc.statuses
    && p["attempts"].JObj? && p["attempts"].fields.Keys == ATTEMPT_FIELDS
    && Count(p["attempts"].fields, "spec") && Count(p["attempts"].fields, "quality")
    && StrList(p["failed_items"]) && StrList(p["fix_list"])
    && p["timestamp"].JStr? && UtcTimestamp(p["timestamp"].s, parses)
    && (p["verify"] == JNull || VerifyWellFormed(p["verify"], parses))
  }

  // ---------------------------------------------------------------------------
  // The checks in the order validate_snapshot makes them; each gives the message
  // of the first failure, or nothing.

  function OrElse(a: Option<string>, b: Option<string>): Option<string> {
    if a.Some? then a else b
  }

  /** The first of `fields` whose value is not text. */
  function FirstNonString(p: map<string, Json>, fields: seq<string>): (r: Option<string>)
    requires forall i :: 0 <= i < |fields| ==> fields[i] in p
    ensures r.None? <==> forall i :: 0 <= i < |fields| ==> p[fields[i]].JStr?
    ensures r.Some? ==> r.value in fields && !p[r.value].JStr?
    decreases |fields|
  {
    if fields == [] then None
    else if !p[fields[0]].JStr? then Some(fields[0])
    else
      var rest := FirstNonString(p, fields[1..]);
      assert forall i :: 1 <= i < |fields| ==> fields[i] == fields[1..][i - 1];
      rest
  }

  /** Whether some text field is not a string does not depend on the order the fields
      are checked in; only which one is named does. */
  lemma FirstNonStringOrderFree(p: map<string, Json>, a: seq<string>, b: seq<string>)
    requires forall i :: 0 <= i < |a| ==> a[i] in p
    requires forall i :: 0 <= i < |b| ==> b[i] in p
    requires forall f :: f in a <==> f in b
    ensures FirstNonString(p, a).None? <==> FirstNonString(p, b).None?
  {
  }

  /** One attempts counter: present, a strict int, not negative. */
  function CountError(m: map<string, Json>, name: string): (r: Option<string>)
    ensures r.None? <==> Count(m, name)
  {
    if name !in m then Some("Missing attempts." + name)
    else if !IsStrictInt(m[name]) then Some("Invalid attempts." + name + ": must be int")
    else if m[name].n < 0 then Some("Invalid attempts." + name + ": must be >= 0")
    else None
  }

  ghost function AttemptsError(a: Json): (r: Option<string>)
    ensures r.None? <==> a.JObj? && a.fields.Keys == ATTEMPT_FIELDS
                         && Count(a.fields, "spec") && Count(a.fields, "quality")
  {
    if !a.JObj? then Some("Invalid attempts: must be object")
    else if a.fields.Keys - ATTEMPT_FIELDS != {} then
      Some("Unknown attempts field(s): " + Join(SortedSet(a.fields.Keys - ATTEMPT_FIELDS), ", "))
    else
      var e := OrElse(CountError(a.fields, "spec"), CountError(a.fields, "quality"));
      assert e.None? ==> a.fields.Keys == ATTEMPT_FIELDS;
      e
  }

  function ListError(v: Json, name: string): (r: Option<string>)
    ensures r.None? <==> StrList(v)
  {
    if !v.JList? then Some("Invalid " + name + ": must be list")
    else if exists i :: 0 <= i < |v.items| && !v.items[i].JStr? then
      Some("Invalid " + name + ": must be list[str]")
    else None
  }

  ghost function VerifyError(v: Json, parses: string -> bool): (r: Option<string>)
    ensures r.None? <==> v == JNull || VerifyWellFormed(v, parses)
  {
    if v == JNull then None
    else if !v.JObj? then Some("Invalid verify: must be object")
    else
      var m := v.fields;
      if m.Keys - VERIFY_FIELDS != {} then
        Some("Unknown verify field(s): " + Join(SortedSet(m.Keys - VERIFY_FIELDS), ", "))
      else if "command" !in m then Some("Missing verify.command")
      else if "exit_code" !in m then Some("Missing verify.exit_code")
      else if "produced_at" !in m then Some("Missing verify.produced_at")
      else if !m["command"].JStr? then Some("Invalid verify.command: must be str")
      else if !IsStrictInt(m["exit_code"]) then Some("Invalid verify.exit_code: must be int")
      else if m["exit_code"].n < 0 then Some("Invalid verify.exit_code: must be >= 0")
      else if !m["produced_at"].JStr? then Some("Invalid verify.produced_at: must be ISO-8601 string")
      else if !UtcTimestamp(m["produced_at"].s, parses) then
        Some("Invalid verify.produced_at: must be ISO-8601 UTC string")
      else if "output_ref" in m && !m["output_ref"].JStr? then Some("Invalid verify.output_ref: must be str")
      else None
  }

  /** The checks after the closed key set and the text fields: schema, session id,
      the enumerations, attempts, the lists, the timestamp and the verify block. */
  ghost function FieldError(p: map<string, Json>, voc: Vocabulary, parses: string -> bool): (r: Option<string>)
    requires p.Keys == REQUIRED_FIELDS
    requires forall i :: 0 <= i < |STRING_FIELDS| ==> p[STRING_FIELDS[i]].JStr?
    ensures r.None? <==> WellFormed(p, voc, parses)
  {
    assert p["schema_version"].JStr? && p["session_id"].JStr? && p["event_type"].JStr?
      && p["stage"].JStr? && p["status"].JStr? && p["timestamp"].JStr? by {
      assert STRING_FIELDS[0] == "schema_version" && STRING_FIELDS[1] == "session_id"
        && STRING_FIELDS[5] == "event_type" && STRING_FIELDS[6] == "stage"
        && STRING_FIELDS[7] == "status" && STRING_FIELDS[8] == "timestamp";
    }
    if p["schema_version"].s != SCHEMA_VERSION then Some("Invalid schema_version: expected " + SCHEMA_VERSION)
    else if IsBlank(p["session_id"].s) then Some("Invalid session_id: must be non-empty string")
    else if p["event_type"].s !in voc.eventTypes then Some("Invalid event_type: " + p["event_type"].s)
    else if p["stage"].s !in voc.stages then Some("Invalid stage: " + p["stage"].s)
    else if p["status"].s !in voc.statuses then Some("Invalid status: " + p["status"].s)
    else
      OrElse(AttemptsError(p["attempts"]),
      OrElse(ListError(p["failed_items"], "failed_items"),
      OrElse(ListError(p["fix_list"], "fix_list"),
      OrElse(if UtcTimestamp(p["timestamp"].s, parses) then None
             else Some("Invalid timestamp: must be ISO-8601 UTC string"),
      VerifyError(p["verify"], parses)))))
  }

  /** `validate_snapshot`: the message of the first check that fails, or the snapshot
      itself. Unknown fields are reported before missing ones, both sorted. */
  ghost function ValidateSpec(p: map<string, Json>, voc: Vocabulary, parses: string -> bool): (r: Result<map<string, Json>>)
    ensures r.Ok? <==> WellFormed(p, voc, parses)
    ensures r.Ok? ==> r.value == p
    ensures p.Keys - REQUIRED_FIELDS != {} ==>
      r == Err("Unknown top-level field(s): " + Join(SortedSet(p.Keys - REQUIRED_FIELDS), ", "))
  {
    if p.Keys - REQUIRED_FIELDS != {} then
      Err("Unknown top-level field(s): " + Join(SortedSet(p.Keys - REQUIRED_FIELDS), ", "))
    else if REQUIRED_FIELDS - p.Keys != {} then
      Err("Missing required field(s): " + Join(SortedSet(REQUIRED_FIELDS - p.Keys), ", "))
    else
      assert forall i :: 0 <= i < |STRING_FIELDS| ==> STRING_FIELDS[i] in p;
      match FirstNonString(p, STRING_FIELDS)
      case Some(f) => Err("Invalid " + f + ": must be str")
      case None =>
        match FieldError(p, voc, parses)
        case Some(e) => Err(e)
        case None => Ok(p)
  }

  /** The message `validate_snapshot` raises for `p`, or `None` when `p` is well-formed. */
  ghost function Rejection(p: map<string, Json>, voc: Vocabulary, parses: string -> bool): (r: Option<string>)
    ensures r.None? <==> WellFormed(p, voc, parses)
  {
    var v := ValidateSpec(p, voc, parses);
    if v.Err? then Some(v.error) else None
  }

  /** With the right keys and every text field a string, validation comes down to the
      field checks. */
  lemma RejectionIsFieldCheck(p: map<string, Json>, voc: Vocabulary, parses: string -> bool)
    requires p.Keys == REQUIRED_FIELDS
    requires forall i :: 0 <= i < |STRING_FIELDS| ==> p[STRING_FIELDS[i]].JStr?
    ensures Rejection(p, voc, parses) == FieldError(p, voc, parses)
  {
    assert p.Keys - REQUIRED_FIELDS == {} && REQUIRED_FIELDS - p.Keys == {};
  }

  /** A valid snapshot validates to itself, and so validating the result again gives
      the same result. */
  lemma ValidateIdempotent(p: map<string, Json>, voc: Vocabulary, parses: string -> bool)
    requires ValidateSpec(p, voc, parses).Ok?
    ensures ValidateSpec(ValidateSpec(p, voc, parses).value, voc, parses) == ValidateSpec(p, voc, parses)
  {
  }

  // ---------------------------------------------------------------------------
  // The validator as a program

  /** The loop over the text fields. */
  method CheckStringFields(p: map<string, Json>) returns (r: Option<string>)
    requires forall i :: 0 <= i < |STRING_FIELDS| ==> STRING_FIELDS[i] in p
    ensures r == FirstNonString(p, STRING_FIELDS)
  {
    var i := 0;
    while i < |STRING_FIELDS|
      invariant 0 <= i <= |STRING_FIELDS|
      invariant FirstNonString(p, STRING_FIELDS) == FirstNonString(p, STRING_FIELDS[i..])
    {
      var f := STRING_FIELDS[i];
      if !p[f].JStr? {
        return Some(f);
      }
      assert STRING_FIELDS[i..][1..] == STRING_FIELDS[i + 1..];
      i := i + 1;
    }
    return None;
  }

  /** The inner loop over a list's items. */
  method CheckList(v: Json, name: string) returns (r: Option<string>)
    ensures r == ListError(v, name)
  {
    if !v.JList? {
      return Some("Invalid " + name + ": must be list");
    }
    var i := 0;
    while i < |v.items|
      invariant 0 <= i <= |v.items|
      invariant forall j :: 0 <= j < i ==> v.items[j].JStr?
    {
      if !v.items[i].JStr? {
        return Some("Invalid " + name + ": must be list[str]");
      }
      i := i + 1;
    }
    return None;
  }

  method CheckAttempts(a: Json) returns (r: Option<string>)
    ensures r == AttemptsError(a)
  {
    if !a.JObj? {
      return Some("Invalid attempts: must be object");
    }
    var unknown := a.fields.Keys - ATTEMPT_FIELDS;
    if unknown != {} {
      var names := SortStrings(unknown);
      return Some("Unknown attempts field(s): " + Join(names, ", "));
    }
    r := CountError(a.fields, "spec");
    if r.None? {
      r := CountError(a.fields, "quality");
    }
  }

  method CheckVerify(v: Json, parses: string -> bool) returns (r: Option<string>)
    ensures r == VerifyError(v, parses)
  {
    if v == JNull {
      return None;
    }
    if !v.JObj? {
      return Some("Invalid verify: must be object");
    }
    var m := v.fields;
    var unknown := m.Keys - VERIFY_FIELDS;
    if unknown != {} {
      var names := SortStrings(unknown);
      return Some("Unknown verify field(s): " + Join(names, ", "));
    }
    if "command" !in m {
      return Some("Missing verify.command");
    }
    if "exit_code" !in m {
      return Some("Missing verify.exit_code");
    }
    if "produced_at" !in m {
      return Some("Missing verify.produced_at");
    }
    if !m["command"].JStr? {
      return Some("Invalid verify.command: must be str");
    }
    if !IsStrictInt(m["exit_code"]) {
      return Some("Invalid verify.exit_code: must be int");
    }
    if m["exit_code"].n < 0 {
      return Some("Invalid verify.exit_code: must be >= 0");
    }
    if !m["produced_at"].JStr? {
      return Some("Invalid verify.produced_at: must be ISO-8601 string");
    }
    if !UtcTimestamp(m["produced_at"].s, parses) {
      return Some("Invalid verify.produced_at: must be ISO-8601 UTC string");
    }
    if "output_ref" in m && !m["output_ref"].JStr? {
      return Some("Invalid verify.output_ref: must be str");
    }
    return None;
  }

  /** `validate_snapshot`: accepts exactly the well-formed snapshots and returns them
      unchanged; otherwise the message of the first failed check. */
  method ValidateSnapshot(p: map<string, Json>, voc: Vocabulary, parses: string -> bool)
    returns (r: Result<map<string, Json>>)
    ensures r == ValidateSpec(p, voc, parses)
    ensures r.Ok? <==> WellFormed(p, voc, parses)
    ensures r.Ok? ==> r.value == p
  {
    var unknown := p.Keys - REQUIRED_FIELDS;
    if unknown != {} {
      var names := SortStrings(unknown);
      return Err("Unknown top-level field(s): " + Join(names, ", "));
    }
    var missing := REQUIRED_FIELDS - p.Keys;
    if missing != {} {
      var names := SortStrings(missing);
      return Err("Missing required field(s): " + Join(names, ", "));
    }
    assert forall i :: 0 <= i < |STRING_FIELDS| ==> STRING_FIELDS[i] in p;
    var bad := CheckStringFields(p);
    if bad.Some? {
      return Err("Invalid " + bad.value + ": must be str");
    }
    var e := FieldChecks(p, voc, parses);
    if e.Some? {
      return Err(e.value);
    }
    return Ok(p);
  }

  method FieldChecks(p: map<string, Json>, voc: Vocabulary, parses: string -> bool) returns (r: Option<string>)
    requires p.Keys == REQUIRED_FIELDS
    requires forall i :: 0 <= i < |STRING_FIELDS| ==> p[STRING_FIELDS[i]].JStr?
    ensures r == FieldError(p, voc, parses)
  {
    assert STRING_FIELDS[0] == "schema_version" && STRING_FIELDS[1] == "session_id"
      && STRING_FIELDS[5] == "event_type" && STRING_FIELDS[6] == "stage"
      && STRING_FIELDS[7] == "status" && STRING_FIELDS[8] == "timestamp";
    if p["schema_version"].s != SCHEMA_VERSION {
      return Some("Invalid schema_version: expected " + SCHEMA_VERSION);
    }
    if IsBlank(p["session_id"].s) {
      return Some("Invalid session_id: must be non-empty string");
    }
    if p["event_type"].s !in voc.eventTypes {
      return Some("Invalid event_type: " + p["event_type"].s);
    }
    if p["stage"].s !in voc.stages {
      return Some("Invalid stage: " + p["stage"].s);
    }
    if p["status"].s !in voc.statuses {
      return Some("Invalid status: " + p["status"].s);
    }
    r := CheckAttempts(p["attempts"]);
    if r.Some? {
      return;
    }
    r := CheckList(p["failed_items"], "failed_items");
    if r.Some? {
      return;
    }
    r := CheckList(p["fix_list"], "fix_list");
    if r.Some? {
      return;
    }
    if !UtcTimestamp(p["timestamp"].s, parses) {
      return Some("Invalid timestamp: must be ISO-8601 UTC string");
    }
    r := CheckVerify(p["verify"], parses);
  }

  /** `emit_snapshot_json`: validates first, so only a well-formed snapshot is ever
      handed to the serialiser; the value serialised is the snapshot itself. */
  method EmitSnapshotJson(p: map<string, Json>, voc: Vocabulary, parses: string -> bool) returns (r: Result<Json>)
    ensures r.Ok? <==> WellFormed(p, voc, parses)
    ensures r.Ok? ==> r.value == JObj(p)
    ensures r.Err? ==> r.error == ValidateSpec(p, voc, parses).error
  {
    var validated := ValidateSnapshot(p, voc, parses);
    if validated.Err? {
      return Err(validated.error);
    }
    return Ok(JObj(validated.value));
  }

  // ---------------------------------------------------------------------------
  // The review-gate enumerations

  /** As written, no snapshot at the review-gate stage validates: the session loop's
      `SESSION_DONE` and `OVERFLOW_FIX_CREATED` snapshots make `emit_snapshot_json`
      raise. */
  lemma AsWrittenRejectsReviewGate(p: map<string, Json>, parses: string -> bool)
    requires "stage" in p && p["stage"] == JStr("REVIEW_GATE")
    ensures ValidateSpec(p, AS_WRITTEN, parses).Err?
  {
    assert "REVIEW_GATE" !in AS_WRITTEN.stages;
    assert !WellFormed(p, AS_WRITTEN, parses);
  }

  /** With the corrected enumerations the review-gate markers are accepted: a
      snapshot at stage `REVIEW_GATE` with status `NEEDS_REVIEW` whose other fields
      are well formed validates. */
  lemma CorrectedAcceptsReviewGate(p: map<string, Json>, parses: string -> bool)
    requires WellFormed(p, AS_WRITTEN, parses)
    ensures ValidateSpec(p["stage" := JStr("REVIEW_GATE")]["status" := JStr("NEEDS_REVIEW")], CORRECTED, parses).Ok?
  {
    var q := p["stage" := JStr("REVIEW_GATE")]["status" := JStr("NEEDS_REVIEW")];
    assert q.Keys == p.Keys;
    forall i | 0 <= i < |STRING_FIELDS|
      ensures q[STRING_FIELDS[i]].JStr?
    {
    }
    assert WellFormed(q, CORRECTED, parses);
  }

  /** Everything the original enumerations accept the corrected ones accept. */
  lemma CorrectedExtendsAsWritten(p: map<string, Json>, parses: string -> bool)
    requires ValidateSpec(p, AS_WRITTEN, parses).Ok?
    ensures ValidateSpec(p, CORRECTED, parses) == ValidateSpec(p, AS_WRITTEN, parses)
  {
  }
}

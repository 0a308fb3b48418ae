/** The tracker gateway over the MCP tools: every tool call is retried on transient
    failures only, at most three times with a doubling sleep between attempts; the
    ready-queue answer and the created issue's id are checked for shape. */
module McpGateway {
  import opened Common

  const MAX_RETRIES := 3
  const INITIAL_BACKOFF := 1.0
  const READY_SHAPE_ERROR := "Expected ready payload with list field 'issues'"
  const ITEM_SHAPE_ERROR := "Expected each ready issue to be a mapping"
  const ID_MAPPING_ERROR := "Expected mapping response with string 'issue_id' field"
  const ID_FIELD_ERROR := "Expected non-empty string field 'issue_id' in MCP response"

  /** One call of an MCP tool, with its positional and keyword arguments. */
  datatype Call = Call(tool: string, positional: seq<Json>, keywords: map<string, Json>)

  /** How a tool call ends: it returns a value, raises `TransientMCPError`, or raises
      anything else. */
  datatype Answer = Returned(value: Json) | Transient(message: string) | Permanent(message: string)

  /** The MCP tools: the answer to a call, given how many calls were made before it. */
  type Mcp = (Call, nat) -> Answer

  // ---------------------------------------------------------------------------
  // Calls and their arguments

  function ReadyCall(): Call { Call("ready", [], map[]) }

  function ShowCall(issueId: string): Call {
    Call("show_issue", [JStr(issueId)], map[])
  }

  /** `set_issue_status` upserts the issue id and the status. */
  function StatusCall(issueId: string, status: string): Call {
    Call("upsert_issue", [], map["issue_id" := JStr(issueId), "status" := JStr(status)])
  }

  /** `add_feedback` addresses the feedback to the issue it comes from. */
  function FeedbackCall(issueId: string, snapshotJson: string): Call {
    Call("add_feedback", [], map["issue_id" := JStr(issueId), "to_id" := JStr(issueId), "content" := JStr(snapshotJson)])
  }

  /** `create_fix_issue` upserts a title and a description and no issue id. */
  function CreateCall(title: string, body: string): Call {
    Call("upsert_issue", [], map["title" := JStr(title), "description" := JStr(body)])
  }

  function LinkCall(fromId: string, toId: string, relation: string): Call {
    Call("link", [], map["from_id" := JStr(fromId), "to_id" := JStr(toId), "type" := JStr(relation)])
  }

  /** The single-issue requests the gateway makes, as the tracker sees them. */
  datatype Request =
    | ShowRequest(issueId: string)
    | StatusRequest(issueId: string, status: string)
    | FeedbackRequest(issueId: string, content: string)
    | CreateRequest(title: string, description: string)
    | LinkRequest(fromId: string, toId: string, relation: string)

  /** The call the gateway makes for a request. */
  function CallFor(q: Request): Call {
    match q
    case ShowRequest(i) => ShowCall(i)
    case StatusRequest(i, st) => StatusCall(i, st)
    case FeedbackRequest(i, text) => FeedbackCall(i, text)
    case CreateRequest(t, b) => CreateCall(t, b)
    case LinkRequest(f, t, rel) => LinkCall(f, t, rel)
  }

  predicate StrAt(kw: map<string, Json>, k: string) { k in kw && kw[k].JStr? }

  /** How the tracker reads a call: by its tool, then by the keywords it carries. An
      `upsert_issue` that names an issue updates it; one that does not creates one. */
  function ReadCall(c: Call): (r: Option<Request>) {
    var kw := c.keywords;
    if c.tool == "show_issue" then
      if |c.positional| == 1 && c.positional[0].JStr? && kw == map[] then Some(ShowRequest(c.positional[0].s)) else None
    else if c.positional != [] then None
    else if c.tool == "upsert_issue" then
      if kw.Keys == {"issue_id", "status"} && StrAt(kw, "issue_id") && StrAt(kw, "status") then
        Some(StatusRequest(kw["issue_id"].s, kw["status"].s))
      else if kw.Keys == {"title", "description"} && StrAt(kw, "title") && StrAt(kw, "description") then
        Some(CreateRequest(kw["title"].s, kw["description"].s))
      else None
    else if c.tool == "add_feedback" then
      if kw.Keys == {"issue_id", "to_id", "content"} && StrAt(kw, "issue_id") && StrAt(kw, "content") && kw["to_id"] == kw["issue_id"] then
        Some(FeedbackRequest(kw["issue_id"].s, kw["content"].s))
      else None
    else if c.tool == "link" then
      if kw.Keys == {"from_id", "to_id", "type"} && StrAt(kw, "from_id") && StrAt(kw, "to_id") && StrAt(kw, "type") then
        Some(LinkRequest(kw["from_id"].s, kw["to_id"].s, kw["type"].s))
      else None
    else None
  }

  /** Every call the gateway makes reads back as the request it was made for: the
      arguments survive, a feedback note is addressed to its own issue, and a status
      write is never taken for a create. */
  lemma ReadCallFor(q: Request)
    ensures ReadCall(CallFor(q)) == Some(q)
  {
    match q
    case ShowRequest(i) =>
    case StatusRequest(i, st) =>
      var kw := map["issue_id" := JStr(i), "status" := JStr(st)];
      assert kw.Keys == {"issue_id", "status"};
    case FeedbackRequest(i, text) =>
      var kw := map["issue_id" := JStr(i), "to_id" := JStr(i), "content" := JStr(text)];
      assert kw.Keys == {"issue_id", "to_id", "content"};
    case CreateRequest(t, b) =>
      var kw := map["title" := JStr(t), "description" := JStr(b)];
      assert kw.Keys == {"title", "description"};
      assert kw.Keys != {"issue_id", "status"} by { assert "issue_id" !in kw.Keys; }
    case LinkRequest(f, t, rel) =>
      var kw := map["from_id" := JStr(f), "to_id" := JStr(t), "type" := JStr(rel)];
      assert kw.Keys == {"from_id", "to_id", "type"};
  }

  /** Conversely, a call the tracker reads as a request is exactly the gateway's call
      for it, so distinct requests never share a call. */
  lemma CallForRead(c: Call, q: Request)
    requires ReadCall(c) == Some(q)
    ensures CallFor(q) == c
  {
    var kw := c.keywords;
    if c.tool == "show_issue" {
      assert c.positional == [c.positional[0]];
    } else if c.tool == "upsert_issue" {
      if kw.Keys == {"issue_id", "status"} && StrAt(kw, "issue_id") && StrAt(kw, "status") {
        assert kw == map["issue_id" := kw["issue_id"], "status" := kw["status"]];
      } else {
        assert kw == map["title" := kw["title"], "description" := kw["description"]];
      }
    } else if c.tool == "add_feedback" {
      assert kw == map["issue_id" := kw["issue_id"], "to_id" := kw["issue_id"], "content" := kw["content"]];
    } else {
      assert kw == map["from_id" := kw["from_id"], "to_id" := kw["to_id"], "type" := kw["type"]];
    }
  }

  // ---------------------------------------------------------------------------
  // Retry

  /** The result of a retried call and how many calls it made. */
  datatype Retried = Retried(result: Result<Json>, calls: nat)

  /** Attempts `a` and later of `_call_with_retry`, the earlier ones having failed
      transiently; `base` is the number of calls made before the first attempt. */
  function RetryFrom(mcp: Mcp, c: Call, base: nat, a: nat): Retried
    requires a < MAX_RETRIES
    decreases MAX_RETRIES - a
  {
    match mcp(c, base + a)
    case Returned(v) => Retried(Ok(v), a + 1)
    case Permanent(m) => Retried(Err(m), a + 1)
    case Transient(m) => if a + 1 == MAX_RETRIES then Retried(Err(m), a + 1) else RetryFrom(mcp, c, base, a + 1)
  }

  /** At most three calls are made and every call but the last failed transiently: a
      value or a permanent failure ends the retries at once, and a third transient
      failure is re-raised. */
  lemma {:induction false} RetryMeans(mcp: Mcp, c: Call, base: nat, a: nat)
    requires a < MAX_RETRIES
    ensures var x := RetryFrom(mcp, c, base, a);
      a < x.calls <= MAX_RETRIES
      && (forall j :: base + a <= j < base + x.calls - 1 ==> mcp(c, j).Transient?)
      && (match mcp(c, base + x.calls - 1)
          case Returned(v) => x.result == Ok(v)
          case Permanent(m) => x.result == Err(m)
          case Transient(m) => x.result == Err(m) && x.calls == MAX_RETRIES)
    decreases MAX_RETRIES - a
  {
    if mcp(c, base + a).Transient? && a + 1 < MAX_RETRIES {
      RetryMeans(mcp, c, base, a + 1);
    }
  }

  /** The sleep before attempt `i + 2`: the initial backoff, doubled after each sleep. */
  function Delay(i: nat): real {
    if i == 0 then INITIAL_BACKOFF else 2.0 * Delay(i - 1)
  }

  /** The sleeps after the first `n` failed attempts. */
  function Backoff(n: nat): (r: seq<real>)
    ensures |r| == n
  {
    if n == 0 then [] else Backoff(n - 1) + [Delay(n - 1)]
  }

  /** The schedule: no sleep before the first attempt, 1.0 s before the second and
      2.0 s before the third. */
  lemma BackoffSchedule()
    ensures Backoff(0) == [] && Backoff(1) == [1.0] && Backoff(2) == [1.0, 2.0]
  {
    assert Delay(1) == 2.0;
  }

  function Copies(c: Call, n: nat): (r: seq<Call>)
    ensures |r| == n && forall i :: 0 <= i < n ==> r[i] == c
  {
    if n == 0 then [] else Copies(c, n - 1) + [c]
  }

  // ---------------------------------------------------------------------------
  // Response shapes

  /** `isinstance(issue, Mapping)`, then `dict(issue)`. */
  function AsMapping(item: Json): Result<map<string, Json>> {
    if item.JObj? then Ok(item.fields) else Err(ITEM_SHAPE_ERROR)
  }

  /** `_coerce_issue_list` as a value. */
  function CoercedIssues(items: seq<Json>): Result<seq<map<string, Json>>> {
    AllOk(AsMapping, items)
  }

  /** Every item must be a mapping, and then each is copied in order. */
  lemma CoercedIssuesMeans(items: seq<Json>)
    ensures var r := CoercedIssues(items);
      (r.Ok? <==> forall i :: 0 <= i < |items| ==> items[i].JObj?)
      && (r.Ok? ==> |r.value| == |items| && forall i :: 0 <= i < |items| ==> r.value[i] == items[i].fields)
      && (r.Err? ==> r.error == ITEM_SHAPE_ERROR)
  {
    AllOkMeans(AsMapping, items);
    var r := CoercedIssues(items);
    if r.Err? {
      var i :| 0 <= i < |items| && AsMapping(items[i]) == Err(r.error) && forall k :: 0 <= k < i ==> AsMapping(items[k]).Ok?;
    }
  }

  /** `_coerce_issue_list` */
  method CoerceIssueList(items: seq<Json>) returns (r: Result<seq<map<string, Json>>>)
    ensures r == CoercedIssues(items)
  {
    CoercedIssuesMeans(items);
    var coerced: seq<map<string, Json>> := [];
    var i := 0;
    while i < |items|
      invariant 0 <= i <= |items|
      invariant |coerced| == i && forall j :: 0 <= j < i ==> items[j].JObj? && coerced[j] == items[j].fields
    {
      if !items[i].JObj? {
        return Err(ITEM_SHAPE_ERROR);
      }
      coerced := coerced + [items[i].fields];
      i := i + 1;
    }
    assert coerced == CoercedIssues(items).value;
    r := Ok(coerced);
  }

  /** The list under `ready.issues`, when the payload has one. */
  function NestedIssues(payload: Json): Option<seq<Json>> {
    if payload.JObj? && Get(payload.fields, "ready").JObj? && Get(Get(payload.fields, "ready").fields, "issues").JList?
    then Some(Get(Get(payload.fields, "ready").fields, "issues").items)
    else None
  }

  /** The list under `issues`, when the payload has one. */
  function TopIssues(payload: Json): Option<seq<Json>> {
    if payload.JObj? && Get(payload.fields, "issues").JList? then Some(Get(payload.fields, "issues").items) else None
  }

  /** `_extract_ready_issues` as a value. */
  function ReadyIssues(payload: Json): Result<seq<map<string, Json>>> {
    if payload.JObj? then
      var ready := Get(payload.fields, "ready");
      if ready.JObj? && Get(ready.fields, "issues").JList? then CoercedIssues(Get(ready.fields, "issues").items)
      else
        var issues := Get(payload.fields, "issues");
        if issues.JList? then CoercedIssues(issues.items) else Err(READY_SHAPE_ERROR)
    else Err(READY_SHAPE_ERROR)
  }

  /** `ready.issues` wins over a top-level `issues` list; with neither the answer is
      rejected for its shape; otherwise the chosen list must hold mappings only. */
  lemma ReadyIssuesMeans(payload: Json)
    ensures var r := ReadyIssues(payload);
      (NestedIssues(payload).Some? ==> r == CoercedIssues(NestedIssues(payload).value))
      && (NestedIssues(payload).None? && TopIssues(payload).Some? ==> r == CoercedIssues(TopIssues(payload).value))
      && (r == Err(READY_SHAPE_ERROR) <==> NestedIssues(payload).None? && TopIssues(payload).None?)
  {
    if NestedIssues(payload).Some? {
      CoercedIssuesMeans(NestedIssues(payload).value);
    } else if TopIssues(payload).Some? {
      CoercedIssuesMeans(TopIssues(payload).value);
    }
  }

  /** `_extract_ready_issues` */
  method ExtractReadyIssues(payload: Json) returns (r: Result<seq<map<string, Json>>>)
    ensures r == ReadyIssues(payload)
  {
    if payload.JObj? {
      var ready := Get(payload.fields, "ready");
      if ready.JObj? && Get(ready.fields, "issues").JList? {
        r := CoerceIssueList(Get(ready.fields, "issues").items);
        return;
      }
      var issues := Get(payload.fields, "issues");
      if issues.JList? {
        r := CoerceIssueList(issues.items);
        return;
      }
    }
    r := Err(READY_SHAPE_ERROR);
  }

  /** `_extract_issue_id`: the created issue's id is returned only when it is a
      non-blank string, and then unchanged. */
  function ExtractIssueId(payload: Json): (r: Result<string>)
    ensures r.Ok? <==> payload.JObj? && IsNonBlankStr(Get(payload.fields, "issue_id"))
    ensures r.Ok? ==> payload.fields["issue_id"] == JStr(r.value) && !IsBlank(r.value)
    ensures r.Err? ==> r.error == (if payload.JObj? then ID_FIELD_ERROR else ID_MAPPING_ERROR)
  {
    if !payload.JObj? then Err(ID_MAPPING_ERROR)
    else
      var issueId := Get(payload.fields, "issue_id");
      if !issueId.JStr? || IsBlank(issueId.s) then Err(ID_FIELD_ERROR) else Ok(issueId.s)
  }

  /** The outcome of a retried call whose `Ok` value is then post-processed. */
  function AndThen<T>(r: Result<Json>, f: Json -> Result<T>): Result<T> {
    if r.Err? then Err(r.error) else f(r.value)
  }

  /** A retried call whose value is dropped. */
  function Done(r: Result<Json>): Result<()> {
    if r.Err? then Err(r.error) else Ok(())
  }

  // ---------------------------------------------------------------------------
  // The gateway

  /** `SudocodeGateway`: `calls` are the tool calls made, in order, and `sleeps` the
      sleeps between them. */
  class SudocodeGateway {
    const mcp: Mcp
    var calls: seq<Call>
    var sleeps: seq<real>

    constructor (mcp: Mcp)
      ensures this.mcp == mcp && calls == [] && sleeps == []
    {
      this.mcp := mcp;
      calls := [];
      sleeps := [];
    }

    /** `_call_with_retry`: the call is repeated while it fails transiently, at most
        three times, sleeping the doubling backoff before each repetition. */
    method CallWithRetry(c: Call) returns (r: Result<Json>)
      modifies this`calls, this`sleeps
      ensures var x := RetryFrom(mcp, c, |old(calls)|, 0);
        r == x.result && calls == old(calls) + Copies(c, x.calls) && sleeps == old(sleeps) + Backoff(x.calls - 1)
    {
      ghost var base := |calls|;
      var delay := INITIAL_BACKOFF;
      var attempt: nat := 0;
      while attempt + 1 < MAX_RETRIES
        invariant attempt < MAX_RETRIES
        invariant calls == old(calls) + Copies(c, attempt) && |calls| == base + attempt
        invariant sleeps == old(sleeps) + Backoff(attempt)
        invariant delay == Delay(attempt)
        invariant RetryFrom(mcp, c, base, 0) == RetryFrom(mcp, c, base, attempt)
        decreases MAX_RETRIES - attempt
      {
        var answer := mcp(c, |calls|);
        calls := calls + [c];
        if answer.Returned? {
          return Ok(answer.value);
        }
        if answer.Permanent? {
          return Err(answer.message);
        }
        sleeps := sleeps + [delay];
        delay := delay * 2.0;
        attempt := attempt + 1;
      }
      var answer := mcp(c, |calls|);
      calls := calls + [c];
      if answer.Returned? {
        return Ok(answer.value);
      }
      return Err(answer.message);
    }

    /** `get_ready_issues` */
    method GetReadyIssues() returns (r: Result<seq<map<string, Json>>>)
      modifies this`calls, this`sleeps
      ensures var x := RetryFrom(mcp, ReadyCall(), |old(calls)|, 0);
        r == AndThen(x.result, ReadyIssues)
        && calls == old(calls) + Copies(ReadyCall(), x.calls) && sleeps == old(sleeps) + Backoff(x.calls - 1)
    {
      var payload := CallWithRetry(ReadyCall());
      if payload.Err? {
        return Err(payload.error);
      }
      r := ExtractReadyIssues(payload.value);
    }

    /** `show_issue`: the tool's answer as it is. */
    method ShowIssue(issueId: string) returns (r: Result<Json>)
      modifies this`calls, this`sleeps
      ensures var x := RetryFrom(mcp, ShowCall(issueId), |old(calls)|, 0);
        r == x.result
        && calls == old(calls) + Copies(ShowCall(issueId), x.calls) && sleeps == old(sleeps) + Backoff(x.calls - 1)
    {
      r := CallWithRetry(ShowCall(issueId));
    }

    /** `set_issue_status` */
    method SetIssueStatus(issueId: string, status: string) returns (r: Result<()>)
      modifies this`calls, this`sleeps
      ensures var x := RetryFrom(mcp, StatusCall(issueId, status), |old(calls)|, 0);
        r == Done(x.result)
        && calls == old(calls) + Copies(StatusCall(issueId, status), x.calls) && sleeps == old(sleeps) + Backoff(x.calls - 1)
    {
      var answer := CallWithRetry(StatusCall(issueId, status));
      r := Done(answer);
    }

    /** `add_feedback` */
    method AddFeedback(issueId: string, snapshotJson: string) returns (r: Result<()>)
      modifies this`calls, this`sleeps
      ensures var x := RetryFrom(mcp, FeedbackCall(issueId, snapshotJson), |old(calls)|, 0);
        r == Done(x.result)
        && calls == old(calls) + Copies(FeedbackCall(issueId, snapshotJson), x.calls) && sleeps == old(sleeps) + Backoff(x.calls - 1)
    {
      var answer := CallWithRetry(FeedbackCall(issueId, snapshotJson));
      r := Done(answer);
    }

    /** `create_fix_issue`: the upsert's answer must carry the new issue's id. */
    method CreateFixIssue(title: string, body: string) returns (r: Result<string>)
      modifies this`calls, this`sleeps
      ensures var x := RetryFrom(mcp, CreateCall(title, body), |old(calls)|, 0);
        r == AndThen(x.result, ExtractIssueId)
        && calls == old(calls) + Copies(CreateCall(title, body), x.calls) && sleeps == old(sleeps) + Backoff(x.calls - 1)
    {
      var answer := CallWithRetry(CreateCall(title, body));
      if answer.Err? {
        return Err(answer.error);
      }
      r := ExtractIssueId(answer.value);
    }

    /** `link_issues` */
    method LinkIssues(fromId: string, toId: string, relation: string) returns (r: Result<()>)
      modifies this`calls, this`sleeps
      ensures var x := RetryFrom(mcp, LinkCall(fromId, toId, relation), |old(calls)|, 0);
        r == Done(x.result)
        && calls == old(calls) + Copies(LinkCall(fromId, toId, relation), x.calls) && sleeps == old(sleeps) + Backoff(x.calls - 1)
    {
      var answer := CallWithRetry(LinkCall(fromId, toId, relation));
      r := Done(answer);
    }
  }
}

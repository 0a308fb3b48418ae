/** The review-gated close rule set applied when a pull request is merged
    (`apply_merge_close`), over an issue tracker modelled as a map from issue id to
    the object `show_issue` returns, plus the append-only log of writes the closer
    makes.  The pure function `ApplySpec` states what one call does; the method
    `ApplyMergeClose` performs it against a `Tracker` and is proved equal to it. */
module MergeCloser {
  import opened Common

  // ---------------------------------------------------------------------------
  // Payloads, results, feedback notes, tracker writes

  /** Who asked for the close (the `CloseSource` literal). */
  datatype Source = Daemon | Workflow | Operator

  datatype Payload = Payload(
    issueId: string, prUrl: string, mergeSha: string, mergedAt: string,
    merged: bool, source: Source)

  datatype CloseResult = CloseResult(applied: bool, reason: string, feedbackMarker: string)

  /** The JSON document one `add_feedback` call carries. */
  datatype Note = Note(
    marker: string, reason: string, issueId: string, prUrl: string,
    mergeSha: string, mergedAt: string, merged: bool, source: Source)

  /** A write made through the tracker gateway. */
  datatype Write =
    | SetStatus(id: string, status: string)
    | AddFeedback(id: string, note: Note)

  /** The two library calls the closer leans on: `_parse_timestamp` on a string
      (`fromisoformat` after replacing `Z`, as an instant in seconds) and
      `_parse_json_object` (`json.loads` when it yields an object). */
  datatype Decoders = Decoders(
    parseTimestamp: string -> Option<int>,
    decodeObject: string -> Option<map<string, Json>>)

  const APPLIED := "MERGE_CLOSE_APPLIED"
  const SKIPPED_ALREADY_CLOSED := "MERGE_CLOSE_SKIPPED_ALREADY_CLOSED"
  const REJECTED := "MERGE_CLOSE_REJECTED"
  const EVIDENCE_RECORDED := "MERGE_EVIDENCE_RECORDED"
  const PARENT_CLOSED_BY_FIX := "OVERFLOW_PARENT_CLOSED_BY_FIX"

  const REASON_ALREADY_CLOSED := "issue already closed"
  const REASON_NOT_NEEDS_REVIEW := "close allowed only from needs_review"
  const REASON_NOT_MERGED := "close requires merged=true precondition"
  const REASON_NO_GATE := "missing review-gate marker in feedback history"
  const REASON_REOPENED := "review-gate marker is older than last reopen"
  const REASON_APPLIED := "merge close applied"

  function NoteFor(p: Payload, target: string, marker: string, reason: string): Note {
    Note(marker, reason, target, p.prUrl, p.mergeSha, p.mergedAt, p.merged, p.source)
  }

  // ---------------------------------------------------------------------------
  // Reading an issue

  /** `_coerce_issue_payload`: unwraps an `issue` object, else takes the mapping itself. */
  function CoerceIssue(raw: Json): (r: Result<map<string, Json>>)
    ensures r.Ok? <==> raw.JObj?
    ensures r.Ok? && Get(raw.fields, "issue").JObj? ==> r.value == raw.fields["issue"].fields
    ensures r.Ok? && !Get(raw.fields, "issue").JObj? ==> r.value == raw.fields
  {
    match raw
    case JObj(m) => if Get(m, "issue").JObj? then Ok(m["issue"].fields) else Ok(m)
    case _ => Err("show_issue payload must be a mapping")
  }

  /** `_normalized_status`: the stripped, lower-cased status string, or "". */
  function NormalizedStatus(issue: map<string, Json>): string {
    var s := Get(issue, "status");
    if s.JStr? then Lower(Strip(s.s)) else ""
  }

  /** `_is_fix_child` */
  predicate IsFixChild(issue: map<string, Json>) {
    var t := Get(issue, "title");
    t.JStr? && StartsWith(t.s, "[FIX]")
  }

  const HistoryKeys: seq<string> := ["feedback_history", "feedback", "history", "feedback_entries"]

  /** `_coerce_history_entry` */
  function CoerceEntry(item: Json, d: Decoders): map<string, Json> {
    match item
    case JObj(m) =>
      var c := Get(m, "content");
      if c.JStr? && d.decodeObject(c.s).Some? then d.decodeObject(c.s).value else m
    case JStr(s) => if d.decodeObject(s).Some? then d.decodeObject(s).value else map[]
    case _ => map[]
  }

  function CoerceEntries(items: seq<Json>, d: Decoders): (r: seq<map<string, Json>>)
    ensures |r| == |items| && forall i :: 0 <= i < |items| ==> r[i] == CoerceEntry(items[i], d)
  {
    if items == [] then [] else [CoerceEntry(items[0], d)] + CoerceEntries(items[1..], d)
  }

  function HistoryFrom(issue: map<string, Json>, keys: seq<string>, d: Decoders): seq<map<string, Json>> {
    if keys == [] then []
    else if Get(issue, keys[0]).JList? then CoerceEntries(Get(issue, keys[0]).items, d)
    else HistoryFrom(issue, keys[1..], d)
  }

  /** `_extract_feedback_history` */
  function ExtractHistory(issue: map<string, Json>, d: Decoders): seq<map<string, Json>> {
    HistoryFrom(issue, HistoryKeys, d)
  }

  /** `_has_merge_close_applied_marker` */
  predicate HasAppliedMarker(history: seq<map<string, Json>>) {
    exists i :: 0 <= i < |history| && Get(history[i], "marker") == JStr(APPLIED)
  }

  /** Python set membership hashes the probe: a list or dict `event_type` raises TypeError. */
  predicate Unhashable(v: Json) { v.JList? || v.JObj? }

  function UnhashableMessage(v: Json): string {
    if v.JList? then "unhashable type: 'list'" else "unhashable type: 'dict'"
  }

  /** The TypeError the timestamp scans raise on the first entry whose `event_type`
      cannot be hashed, if any. */
  function ScanError(history: seq<map<string, Json>>): (r: Option<string>)
    ensures r.None? <==> forall i :: 0 <= i < |history| ==> !Unhashable(Get(history[i], "event_type"))
  {
    if history == [] then None
    else if Unhashable(Get(history[0], "event_type")) then Some(UnhashableMessage(Get(history[0], "event_type")))
    else ScanError(history[1..])
  }

  function StampOf(v: Json, d: Decoders): Option<int> {
    if v.JStr? then d.parseTimestamp(v.s) else None
  }

  /** The time of an entry when it is a review-gate marker with a parseable timestamp. */
  function GateStamp(e: map<string, Json>, d: Decoders): Option<int> {
    var et := Get(e, "event_type");
    if (et == JStr("SESSION_DONE") || et == JStr("OVERFLOW_FIX_CREATED"))
       && Get(e, "stage") == JStr("REVIEW_GATE") && Get(e, "status") == JStr("NEEDS_REVIEW")
    then StampOf(Get(e, "timestamp"), d)
    else None
  }

  predicate IsReopen(e: map<string, Json>) {
    var et := Get(e, "event_type");
    var st := Get(e, "status");
    et == JStr("SESSION_REOPENED") || et == JStr("ISSUE_REOPENED")
    || (st.JStr? && Upper(Strip(st.s)) == "OPEN")
  }

  /** The time of an entry when it is a reopen marker with a parseable timestamp. */
  function ReopenStamp(e: map<string, Json>, d: Decoders): Option<int> {
    if IsReopen(e) then StampOf(Get(e, "timestamp"), d) else None
  }

  function GateStamps(h: seq<map<string, Json>>, d: Decoders): (r: seq<Option<int>>)
    ensures |r| == |h| && forall i :: 0 <= i < |h| ==> r[i] == GateStamp(h[i], d)
  {
    seq(|h|, i requires 0 <= i < |h| => GateStamp(h[i], d))
  }

  function ReopenStamps(h: seq<map<string, Json>>, d: Decoders): (r: seq<Option<int>>)
    ensures |r| == |h| && forall i :: 0 <= i < |h| ==> r[i] == ReopenStamp(h[i], d)
  {
    seq(|h|, i requires 0 <= i < |h| => ReopenStamp(h[i], d))
  }

  /** One step of the running `latest` update: a strictly later time replaces it. */
  function Later(latest: Option<int>, t: Option<int>): Option<int> {
    if t.None? then latest
    else if latest.None? || t.value > latest.value then t
    else latest
  }

  /** The latest time among the present ones, scanning left to right. */
  function Latest(stamps: seq<Option<int>>): Option<int> {
    if stamps == [] then None else Later(Latest(stamps[..|stamps| - 1]), stamps[|stamps| - 1])
  }

  /** `Latest` is the maximum: it is absent exactly when no time is present, and
      otherwise it is one of the present times and no present time exceeds it. */
  lemma {:induction false} LatestIsMax(stamps: seq<Option<int>>)
    ensures Latest(stamps).None? <==> forall i :: 0 <= i < |stamps| ==> stamps[i].None?
    ensures Latest(stamps).Some? ==>
      (exists i :: 0 <= i < |stamps| && stamps[i] == Latest(stamps))
      && forall i :: 0 <= i < |stamps| && stamps[i].Some? ==> stamps[i].value <= Latest(stamps).value
  {
    if stamps != [] {
      var init := stamps[..|stamps| - 1];
      LatestIsMax(init);
      assert forall i :: 0 <= i < |init| ==> init[i] == stamps[i];
      if Latest(init).Some? {
        var k :| 0 <= k < |init| && init[k] == Latest(init);
        assert stamps[k] == Latest(init);
      }
    }
  }

  /** The latest marker is chosen by time, not position: any reordering of the
      history gives the same result. */
  lemma LatestOrderFree(a: seq<Option<int>>, b: seq<Option<int>>)
    requires multiset(a) == multiset(b)
    ensures Latest(a) == Latest(b)
  {
    LatestIsMax(a);
    LatestIsMax(b);
    if Latest(a).Some? {
      var i :| 0 <= i < |a| && a[i] == Latest(a);
      var j := SameElement(a, b, i);
      if Latest(b).Some? {
        var j' :| 0 <= j' < |b| && b[j'] == Latest(b);
        var i' := SameElement(b, a, j');
      }
    } else if Latest(b).Some? {
      var j :| 0 <= j < |b| && b[j] == Latest(b);
      var i := SameElement(b, a, j);
    }
  }

  lemma SameElement<T>(a: seq<T>, b: seq<T>, i: nat) returns (j: nat)
    requires multiset(a) == multiset(b) && i < |a|
    ensures j < |b| && b[j] == a[i]
  {
    assert a[i] in multiset(a);
    assert a[i] in b;
    j :| 0 <= j < |b| && b[j] == a[i];
  }

  // ---------------------------------------------------------------------------
  // Linked parents of a fix child

  /** The three shapes a parent link can take in an issue object. */
  datatype Shape = LinkedParents | Incoming | Links

  /** The list of link items the given shape reads, or [] when the shape does not apply
      (not a list, no string `issue_id`, `relationships` not a mapping). */
  function ShapeItems(issue: map<string, Json>, shape: Shape): seq<Json> {
    match shape
    case LinkedParents =>
      var lp := Get(issue, "linked_parents");
      if lp.JList? then lp.items else []
    case Incoming =>
      var rel := Get(issue, "relationships");
      if Get(issue, "issue_id").JStr? && rel.JObj? && Get(rel.fields, "incoming").JList?
      then Get(rel.fields, "incoming").items else []
    case Links =>
      var links := Get(issue, "links");
      if Get(issue, "issue_id").JStr? && links.JList? then links.items else []
  }

  predicate IsDependsOn(v: Json) { v == JStr("depends-on") || v == JStr("depends_on") }

  /** The parent id one link item contributes, if any; `current` is the issue's own id. */
  function ItemParent(item: Json, shape: Shape, current: Json): Option<string> {
    if !item.JObj? then None
    else
      var m := item.fields;
      match shape
      case LinkedParents =>
        if Get(m, "issue_id").JStr? then Some(Get(m, "issue_id").s) else None
      case _ =>
        var typeKey := if shape == Incoming then "relationship_type" else "type";
        var from := Get(m, "from_id");
        var to := Get(m, "to_id");
        if from.JStr? && to.JStr? && to == current && IsDependsOn(Get(m, typeKey))
        then Some(from.s) else None
  }

  /** `p` is a parent of `issue` through one of the three shapes. */
  predicate IsLinkedParent(issue: map<string, Json>, p: string) {
    exists shape: Shape, i {:trigger ShapeItems(issue, shape)[i]} ::
      0 <= i < |ShapeItems(issue, shape)|
      && ItemParent(ShapeItems(issue, shape)[i], shape, Get(issue, "issue_id")) == Some(p)
  }

  function InsertParents(acc: seq<string>, items: seq<Json>, shape: Shape, current: Json): (r: seq<string>)
    requires StrictlySorted(acc)
    ensures StrictlySorted(r)
    ensures forall p :: p in r <==> p in acc || exists i :: 0 <= i < |items| && ItemParent(items[i], shape, current) == Some(p)
    decreases |items|
  {
    if items == [] then acc
    else
      var acc' := match ItemParent(items[0], shape, current)
        case Some(p) => InsertSorted(acc, p)
        case None => acc;
      var r := InsertParents(acc', items[1..], shape, current);
      assert forall p :: ((exists i :: 0 <= i < |items| && ItemParent(items[i], shape, current) == Some(p))
        <==> (ItemParent(items[0], shape, current) == Some(p)
              || exists i :: 0 <= i < |items[1..]| && ItemParent(items[1..][i], shape, current) == Some(p)))
      by {
        forall p ensures (exists i :: 0 <= i < |items| && ItemParent(items[i], shape, current) == Some(p))
          ==> ItemParent(items[0], shape, current) == Some(p)
              || exists i :: 0 <= i < |items[1..]| && ItemParent(items[1..][i], shape, current) == Some(p)
        {
          if i :| 0 <= i < |items| && ItemParent(items[i], shape, current) == Some(p) {
            if i > 0 { assert items[1..][i - 1] == items[i]; }
          }
        }
      }
      r
  }

  /** `_linked_parent_issue_ids` as a value: the sorted set of linked parents. */
  function ParentIds(issue: map<string, Json>): (r: seq<string>)
    ensures StrictlySorted(r)
  {
    var cur := Get(issue, "issue_id");
    var a := InsertParents([], ShapeItems(issue, LinkedParents), LinkedParents, cur);
    var b := InsertParents(a, ShapeItems(issue, Incoming), Incoming, cur);
    InsertParents(b, ShapeItems(issue, Links), Links, cur)
  }

  /** The parent ids are exactly the linked parents of all three shapes, sorted,
      each once. */
  lemma ParentIdsAreLinkedParents(issue: map<string, Json>)
    ensures StrictlySorted(ParentIds(issue))
    ensures forall p :: p in ParentIds(issue) <==> IsLinkedParent(issue, p)
  {
    var cur := Get(issue, "issue_id");
    forall p ensures p in ParentIds(issue) <==> IsLinkedParent(issue, p) {
      if IsLinkedParent(issue, p) {
        var shape: Shape, i :| 0 <= i < |ShapeItems(issue, shape)|
          && ItemParent(ShapeItems(issue, shape)[i], shape, cur) == Some(p);
        assert p in ParentIds(issue);
      }
    }
  }

  method AddParentsOfShape(acc: seq<string>, items: seq<Json>, shape: Shape, current: Json)
    returns (ids: seq<string>)
    requires StrictlySorted(acc)
    ensures StrictlySorted(ids)
    ensures forall p :: p in ids <==> p in acc || exists i :: 0 <= i < |items| && ItemParent(items[i], shape, current) == Some(p)
  {
    ids := acc;
    var k := 0;
    while k < |items|
      invariant 0 <= k <= |items|
      invariant StrictlySorted(ids)
      invariant forall p :: p in ids <==> p in acc || exists i :: 0 <= i < k && ItemParent(items[i], shape, current) == Some(p)
    {
      var candidate := ItemParent(items[k], shape, current);
      if candidate.Some? {
        ids := InsertSorted(ids, candidate.value);
      }
      k := k + 1;
    }
  }

  /** The loops of `_linked_parent_issue_ids`, which fill a set and sort it. */
  method LinkedParentIssueIds(issue: map<string, Json>) returns (ids: seq<string>)
    ensures ids == ParentIds(issue)
    ensures StrictlySorted(ids) && forall p :: p in ids <==> IsLinkedParent(issue, p)
  {
    var cur := Get(issue, "issue_id");
    ids := AddParentsOfShape([], ShapeItems(issue, LinkedParents), LinkedParents, cur);
    ids := AddParentsOfShape(ids, ShapeItems(issue, Incoming), Incoming, cur);
    ids := AddParentsOfShape(ids, ShapeItems(issue, Links), Links, cur);
    ParentIdsAreLinkedParents(issue);
    assert forall p :: p in ids <==> p in ParentIds(issue);
    StrictlySortedUnique(ids, ParentIds(issue));
  }

  // ---------------------------------------------------------------------------
  // The tracker state and its writes

  /** `show_issue` against the tracker map: an unknown id raises, a non-mapping raises. */
  function ShowSpec(issues: map<string, Json>, id: string): (r: Result<map<string, Json>>)
    ensures id !in issues ==> r.Err?
    ensures id in issues ==> r == CoerceIssue(issues[id])
  {
    if id in issues then CoerceIssue(issues[id]) else Err("issue not found: " + id)
  }

  /** The stored object after `set_issue_status`: the status of the issue that
      `show_issue` exposes is replaced, everything else is kept. */
  function WithStatus(raw: Json, status: string): Json {
    match raw
    case JObj(m) =>
      if Get(m, "issue").JObj? then JObj(m["issue" := JObj(m["issue"].fields["status" := JStr(status)])])
      else JObj(m["status" := JStr(status)])
    case _ => raw
  }

  lemma WithStatusShows(raw: Json, status: string)
    requires raw.JObj?
    ensures CoerceIssue(WithStatus(raw, status)) == Ok(CoerceIssue(raw).value["status" := JStr(status)])
  {
  }

  lemma ClosedReadsClosed(issue: map<string, Json>)
    ensures NormalizedStatus(issue["status" := JStr("closed")]) == "closed"
  {
    StripOfNonSpaceEnds("closed");
    var l := Lower("closed");
    assert forall i :: 0 <= i < 6 ==> l[i] == "closed"[i];
  }

  function Step(issues: map<string, Json>, w: Write): map<string, Json> {
    match w
    case SetStatus(id, s) => if id in issues then issues[id := WithStatus(issues[id], s)] else issues
    case AddFeedback(_, _) => issues
  }

  function ApplyAll(issues: map<string, Json>, ws: seq<Write>): map<string, Json>
    decreases |ws|
  {
    if ws == [] then issues else ApplyAll(Step(issues, ws[0]), ws[1..])
  }

  lemma {:induction false} ApplyAllAppend(issues: map<string, Json>, a: seq<Write>, b: seq<Write>)
    ensures ApplyAll(issues, a + b) == ApplyAll(ApplyAll(issues, a), b)
    decreases |a|
  {
    if a == [] {
      assert a + b == b;
    } else {
      assert (a + b)[0] == a[0];
      assert (a + b)[1..] == a[1..] + b;
      ApplyAllAppend(Step(issues, a[0]), a[1..], b);
    }
  }

  lemma ApplyAllTwo(issues: map<string, Json>, a: Write, b: Write)
    ensures ApplyAll(issues, [a, b]) == Step(Step(issues, a), b)
  {
    assert [a, b][1..] == [b];
    assert [b][1..] == [];
    assert ApplyAll(Step(issues, a), [b]) == ApplyAll(Step(Step(issues, a), b), []);
  }

  lemma ApplyAllThree(issues: map<string, Json>, a: Write, b: Write, c: Write)
    ensures ApplyAll(issues, [a, b, c]) == Step(Step(Step(issues, a), b), c)
  {
    assert [a, b, c][1..] == [b, c];
    ApplyAllTwo(Step(issues, a), b, c);
  }

  /** Feedback writes leave the issue objects as they are. */
  lemma {:induction false} FeedbackKeepsIssues(issues: map<string, Json>, ws: seq<Write>)
    requires forall i :: 0 <= i < |ws| ==> ws[i].AddFeedback?
    ensures ApplyAll(issues, ws) == issues
    decreases |ws|
  {
    if ws != [] {
      assert forall i :: 0 <= i < |ws[1..]| ==> ws[1..][i] == ws[i + 1];
      FeedbackKeepsIssues(issues, ws[1..]);
    }
  }

  predicate IsClosed(issues: map<string, Json>, id: string) {
    id in issues && CoerceIssue(issues[id]).Ok? && NormalizedStatus(CoerceIssue(issues[id]).value) == "closed"
  }

  /** A write to another issue leaves this one as it was. */
  lemma StepElsewhere(issues: map<string, Json>, w: Write, id: string)
    requires !(w.SetStatus? && w.id == id)
    ensures (id in Step(issues, w)) == (id in issues)
    ensures id in issues ==> Step(issues, w)[id] == issues[id]
  {
  }

  /** Closing an issue that reads as a mapping makes it read as closed. */
  lemma StepCloses(issues: map<string, Json>, id: string)
    requires id in issues && issues[id].JObj?
    ensures IsClosed(Step(issues, SetStatus(id, "closed")), id)
  {
    WithStatusShows(issues[id], "closed");
    ClosedReadsClosed(CoerceIssue(issues[id]).value);
  }

  /** Every status write in `ws` closes. */
  predicate OnlyCloses(ws: seq<Write>) {
    forall i :: 0 <= i < |ws| && ws[i].SetStatus? ==> ws[i].status == "closed"
  }

  /** A closed issue stays closed under writes that only close. */
  lemma {:induction false} ClosedStaysClosed(issues: map<string, Json>, ws: seq<Write>, id: string)
    requires OnlyCloses(ws) && IsClosed(issues, id)
    ensures IsClosed(ApplyAll(issues, ws), id)
    decreases |ws|
  {
    if ws != [] {
      var s := Step(issues, ws[0]);
      if ws[0].SetStatus? && ws[0].id == id {
        assert ws[0] == SetStatus(id, "closed");
        StepCloses(issues, id);
      } else {
        StepElsewhere(issues, ws[0], id);
      }
      assert OnlyCloses(ws[1..]) by {
        forall i | 0 <= i < |ws[1..]| && ws[1..][i].SetStatus? ensures ws[1..][i].status == "closed" {
          assert ws[1..][i] == ws[i + 1];
        }
      }
      ClosedStaysClosed(s, ws[1..], id);
    }
  }

  /** The number of times the log closes `id`. */
  function CloseCount(log: seq<Write>, id: string): nat {
    if log == [] then 0
    else CloseCount(log[..|log| - 1], id) + (if log[|log| - 1] == SetStatus(id, "closed") then 1 else 0)
  }

  /** The at-most-once invariant: no issue is closed twice through the log, and an issue
      the log has closed still reads as closed. */
  ghost predicate AtMostOnceClosed(issues: map<string, Json>, log: seq<Write>) {
    forall id :: CloseCount(log, id) <= 1 && (CloseCount(log, id) == 1 ==> IsClosed(issues, id))
  }

  /** A write that, if it sets a status, closes an issue that reads as a mapping and
      not as closed. */
  predicate FreshWrite(issues: map<string, Json>, w: Write) {
    w.SetStatus? ==>
      (w.status == "closed" && w.id in issues && issues[w.id].JObj? && !IsClosed(issues, w.id))
  }

  /** Writes that are fresh one at a time, each against the state the earlier ones left. */
  predicate ClosesFresh(issues: map<string, Json>, ws: seq<Write>)
    decreases |ws|
  {
    ws == [] || (FreshWrite(issues, ws[0]) && ClosesFresh(Step(issues, ws[0]), ws[1..]))
  }

  lemma OneWriteKeepsAtMostOnce(issues: map<string, Json>, log: seq<Write>, w: Write)
    requires AtMostOnceClosed(issues, log) && FreshWrite(issues, w)
    ensures AtMostOnceClosed(Step(issues, w), log + [w])
  {
    var log' := log + [w];
    assert log'[..|log'| - 1] == log;
    forall id ensures CloseCount(log', id) <= 1 && (CloseCount(log', id) == 1 ==> IsClosed(Step(issues, w), id)) {
      if w.SetStatus? && w.id == id {
        assert CloseCount(log, id) == 0;
        StepCloses(issues, id);
      } else {
        StepElsewhere(issues, w, id);
        assert CloseCount(log', id) == CloseCount(log, id);
      }
    }
  }

  lemma {:induction false} ClosesFreshKeepsAtMostOnce(issues: map<string, Json>, log: seq<Write>, ws: seq<Write>)
    requires AtMostOnceClosed(issues, log) && ClosesFresh(issues, ws)
    ensures AtMostOnceClosed(ApplyAll(issues, ws), log + ws)
    decreases |ws|
  {
    if ws == [] {
      assert log + ws == log;
    } else {
      OneWriteKeepsAtMostOnce(issues, log, ws[0]);
      assert log + [ws[0]] + ws[1..] == log + ws;
      ClosesFreshKeepsAtMostOnce(Step(issues, ws[0]), log + [ws[0]], ws[1..]);
    }
  }

  /** A tracker gateway: the issue objects `show_issue` returns and the log of writes. */
  class Tracker {
    var issues: map<string, Json>
    var log: seq<Write>

    ghost predicate Valid()
      reads this
    {
      AtMostOnceClosed(issues, log)
    }

    constructor(initial: map<string, Json>)
      ensures issues == initial && log == [] && Valid()
    {
      issues := initial;
      log := [];
    }

    method ShowIssue(id: string) returns (r: Result<map<string, Json>>)
      ensures r == ShowSpec(issues, id)
    {
      r := ShowSpec(issues, id);
    }

    method SetIssueStatus(id: string, status: string)
      modifies this
      ensures log == old(log) + [SetStatus(id, status)]
      ensures issues == Step(old(issues), SetStatus(id, status))
    {
      issues := Step(issues, SetStatus(id, status));
      log := log + [SetStatus(id, status)];
    }

    method AddIssueFeedback(id: string, note: Note)
      modifies this
      ensures log == old(log) + [AddFeedback(id, note)] && issues == old(issues)
    {
      log := log + [AddFeedback(id, note)];
    }
  }

  // ---------------------------------------------------------------------------
  // The rule set as a function

  /** What one call writes and returns; an error is an exception escaping the call
      after the writes made so far. */
  datatype Outcome = Outcome(writes: seq<Write>, result: Result<CloseResult>)

  /** The result of the parent cascade: its writes, and the error that cut it short. */
  datatype Cascaded = Cascaded(writes: seq<Write>, error: Option<string>)

  /** The two writes that close one parent. */
  function ParentCloseWrites(p: Payload, id: string): seq<Write> {
    [SetStatus(id, "closed"),
     AddFeedback(id, NoteFor(p, id, PARENT_CLOSED_BY_FIX, "closed by fix child " + p.issueId))]
  }

  /** One parent of the cascade against the current state: `show_issue` may raise;
      a parent in needs_review gets its two writes, any other is passed over. */
  function ParentStep(issues: map<string, Json>, id: string, p: Payload): (r: Result<seq<Write>>)
    ensures r.Err? <==> ShowSpec(issues, id).Err?
  {
    match ShowSpec(issues, id)
    case Err(e) => Err(e)
    case Ok(parent) => Ok(if NormalizedStatus(parent) == "needs_review" then ParentCloseWrites(p, id) else [])
  }

  /** Closing the linked parents of a fix child in order, each against the state the
      earlier ones left; the first `show_issue` that raises ends the cascade. */
  function CascadeSpec(issues: map<string, Json>, parents: seq<string>, p: Payload): Cascaded
    decreases |parents|
  {
    if parents == [] then Cascaded([], None)
    else
      var prior := CascadeSpec(issues, parents[..|parents| - 1], p);
      if prior.error.Some? then prior
      else
        match ParentStep(ApplyAll(issues, prior.writes), parents[|parents| - 1], p)
        case Err(e) => Cascaded(prior.writes, Some(e))
        case Ok(w) => Cascaded(prior.writes + w, None)
  }

  /** The first rule after "not closed" that fails, if any, or the TypeError of the scans. */
  function Rejection(status: string, p: Payload, history: seq<map<string, Json>>, d: Decoders): Result<Option<string>> {
    if status != "needs_review" then Ok(Some(REASON_NOT_NEEDS_REVIEW))
    else if !p.merged then Ok(Some(REASON_NOT_MERGED))
    else if ScanError(history).Some? then Err(ScanError(history).value)
    else
      var gate := Latest(GateStamps(history, d));
      var reopen := Latest(ReopenStamps(history, d));
      if gate.None? then Ok(Some(REASON_NO_GATE))
      else if reopen.Some? && gate.value <= reopen.value then Ok(Some(REASON_REOPENED))
      else Ok(None)
  }

  function MainCloseWrites(p: Payload): seq<Write> {
    [AddFeedback(p.issueId, NoteFor(p, p.issueId, EVIDENCE_RECORDED, "merge evidence recorded")),
     SetStatus(p.issueId, "closed"),
     AddFeedback(p.issueId, NoteFor(p, p.issueId, APPLIED, REASON_APPLIED))]
  }

  function AlreadyClosedWrites(p: Payload, history: seq<map<string, Json>>): seq<Write> {
    (if HasAppliedMarker(history) then []
     else [AddFeedback(p.issueId, NoteFor(p, p.issueId, APPLIED, "backfill merge-close marker for already closed issue"))])
    + [AddFeedback(p.issueId, NoteFor(p, p.issueId, SKIPPED_ALREADY_CLOSED, REASON_ALREADY_CLOSED))]
  }

  /** `apply_merge_close` as a function of the tracker state. */
  function ApplySpec(issues: map<string, Json>, p: Payload, d: Decoders): Outcome {
    match ShowSpec(issues, p.issueId)
    case Err(e) => Outcome([], Err(e))
    case Ok(issue) =>
      var status := NormalizedStatus(issue);
      var history := ExtractHistory(issue, d);
      if status == "closed" then
        Outcome(AlreadyClosedWrites(p, history),
                Ok(CloseResult(false, REASON_ALREADY_CLOSED, SKIPPED_ALREADY_CLOSED)))
      else
        match Rejection(status, p, history, d)
        case Err(e) => Outcome([], Err(e))
        case Ok(Some(reason)) =>
          Outcome([AddFeedback(p.issueId, NoteFor(p, p.issueId, REJECTED, reason))],
                  Ok(CloseResult(false, reason, REJECTED)))
        case Ok(None) =>
          var main := MainCloseWrites(p);
          var cascade := if IsFixChild(issue) then CascadeSpec(ApplyAll(issues, main), ParentIds(issue), p)
                         else Cascaded([], None);
          Outcome(main + cascade.writes,
                  if cascade.error.Some? then Err(cascade.error.value)
                  else Ok(CloseResult(true, REASON_APPLIED, APPLIED)))
  }

  // ---------------------------------------------------------------------------
  // Properties of the rule set

  /** An issue already closed is never written a status: the outcome is the skip,
      with the applied marker backfilled only when the history lacks one, followed by
      exactly one skip note. */
  lemma AlreadyClosedSkips(issues: map<string, Json>, p: Payload, d: Decoders)
    requires IsClosed(issues, p.issueId)
    ensures ApplySpec(issues, p, d).result == Ok(CloseResult(false, REASON_ALREADY_CLOSED, SKIPPED_ALREADY_CLOSED))
    ensures forall w :: w in ApplySpec(issues, p, d).writes ==> w.AddFeedback? && w.id == p.issueId
    ensures var ws := ApplySpec(issues, p, d).writes;
      var h := ExtractHistory(CoerceIssue(issues[p.issueId]).value, d);
      |ws| == (if HasAppliedMarker(h) then 1 else 2)
      && ws[|ws| - 1].note.marker == SKIPPED_ALREADY_CLOSED
      && (|ws| == 2 ==> ws[0].note.marker == APPLIED)
  {
  }

  /** Every rejection writes exactly one `MERGE_CLOSE_REJECTED` note with the reason
      it returns, and no status. */
  lemma RejectionWritesOneNote(issues: map<string, Json>, p: Payload, d: Decoders)
    requires ApplySpec(issues, p, d).result.Ok?
    requires ApplySpec(issues, p, d).result.value.feedbackMarker == REJECTED
    ensures var o := ApplySpec(issues, p, d);
      !o.result.value.applied
      && o.writes == [AddFeedback(p.issueId, NoteFor(p, p.issueId, REJECTED, o.result.value.reason))]
  {
    ApplySpecWrites(issues, p, d);
    var issue := ShowSpec(issues, p.issueId).value;
    var status := NormalizedStatus(issue);
    var h := ExtractHistory(issue, d);
    assert status != "closed";
    var rej := Rejection(status, p, h, d);
    assert rej.Ok? && rej.value.Some?;
  }

  /** The rules are tried in order, and the first that fails gives the reason. */
  lemma RuleOrder(issues: map<string, Json>, p: Payload, d: Decoders)
    requires ShowSpec(issues, p.issueId).Ok?
    ensures var issue := ShowSpec(issues, p.issueId).value;
      var status := NormalizedStatus(issue);
      var h := ExtractHistory(issue, d);
      var r := ApplySpec(issues, p, d).result;
      (status == "closed" ==> r == Ok(CloseResult(false, REASON_ALREADY_CLOSED, SKIPPED_ALREADY_CLOSED)))
      && (status != "closed" && status != "needs_review" ==> r == Ok(CloseResult(false, REASON_NOT_NEEDS_REVIEW, REJECTED)))
      && (status == "needs_review" && !p.merged ==> r == Ok(CloseResult(false, REASON_NOT_MERGED, REJECTED)))
      && (status == "needs_review" && p.merged && ScanError(h).None? && Latest(GateStamps(h, d)).None?
          ==> r == Ok(CloseResult(false, REASON_NO_GATE, REJECTED)))
      && (status == "needs_review" && p.merged && ScanError(h).None? && Latest(GateStamps(h, d)).Some?
          && Latest(ReopenStamps(h, d)).Some? && Latest(GateStamps(h, d)).value <= Latest(ReopenStamps(h, d)).value
          ==> r == Ok(CloseResult(false, REASON_REOPENED, REJECTED)))
  {
  }

  /** A gate marker strictly later than every reopen marker in the history. */
  ghost predicate GateAfterEveryReopen(h: seq<map<string, Json>>, d: Decoders) {
    SomeAfterAll(GateStamps(h, d), ReopenStamps(h, d))
  }

  /** Some time of `gs` is strictly later than every time of `rs`. */
  ghost predicate SomeAfterAll(gs: seq<Option<int>>, rs: seq<Option<int>>) {
    exists i :: 0 <= i < |gs| && gs[i].Some?
      && forall j :: 0 <= j < |rs| && rs[j].Some? ==> rs[j].value < gs[i].value
  }

  /** The close rules pass exactly when the status is needs_review, the merge happened,
      and some review-gate marker is strictly later than every reopen marker. */
  lemma RulesPassIff(status: string, p: Payload, h: seq<map<string, Json>>, d: Decoders)
    requires ScanError(h).None?
    ensures Rejection(status, p, h, d) == Ok(None) <==>
      status == "needs_review" && p.merged && GateAfterEveryReopen(h, d)
  {
    LatestGateAfterReopen(GateStamps(h, d), ReopenStamps(h, d));
  }

  /** The two latest-time scans compare as the gate rule needs exactly when some gate
      time beats every reopen time. */
  lemma LatestGateAfterReopen(gs: seq<Option<int>>, rs: seq<Option<int>>)
    ensures (Latest(gs).Some? && !(Latest(rs).Some? && Latest(gs).value <= Latest(rs).value))
      <==> SomeAfterAll(gs, rs)
  {
    LatestIsMax(gs);
    LatestIsMax(rs);
    if Latest(gs).Some? && !(Latest(rs).Some? && Latest(gs).value <= Latest(rs).value) {
      var i :| 0 <= i < |gs| && gs[i] == Latest(gs);
      assert gs[i].Some?;
    }
    if SomeAfterAll(gs, rs) {
      var i :| 0 <= i < |gs| && gs[i].Some?
        && forall j :: 0 <= j < |rs| && rs[j].Some? ==> rs[j].value < gs[i].value;
      if Latest(rs).Some? {
        var j :| 0 <= j < |rs| && rs[j] == Latest(rs);
        assert rs[j].value < gs[i].value <= Latest(gs).value;
      }
    }
  }

  /** The branches of `ApplySpec`, by the writes each produces. */
  lemma ApplySpecWrites(issues: map<string, Json>, p: Payload, d: Decoders)
    ensures var o := ApplySpec(issues, p, d);
      match ShowSpec(issues, p.issueId)
      case Err(_) => o.writes == []
      case Ok(issue) =>
        var status := NormalizedStatus(issue);
        var h := ExtractHistory(issue, d);
        if status == "closed" then o.writes == AlreadyClosedWrites(p, h)
        else match Rejection(status, p, h, d)
          case Err(_) => o.writes == []
          case Ok(Some(reason)) => o.writes == [AddFeedback(p.issueId, NoteFor(p, p.issueId, REJECTED, reason))]
          case Ok(None) =>
            o.writes == MainCloseWrites(p)
              + (if IsFixChild(issue) then CascadeSpec(ApplyAll(issues, MainCloseWrites(p)), ParentIds(issue), p).writes else [])
  {
  }

  lemma ClosesIffRulesPass(issues: map<string, Json>, p: Payload, d: Decoders)
    requires ShowSpec(issues, p.issueId).Ok?
    ensures var issue := ShowSpec(issues, p.issueId).value;
      var pass := NormalizedStatus(issue) != "closed"
        && Rejection(NormalizedStatus(issue), p, ExtractHistory(issue, d), d) == Ok(None);
      (SetStatus(p.issueId, "closed") in ApplySpec(issues, p, d).writes <==> pass)
      && (ApplySpec(issues, p, d).result == Ok(CloseResult(true, REASON_APPLIED, APPLIED)) ==> pass)
  {
    var issue := ShowSpec(issues, p.issueId).value;
    var status := NormalizedStatus(issue);
    var h := ExtractHistory(issue, d);
    ApplySpecWrites(issues, p, d);
    var ws := ApplySpec(issues, p, d).writes;
    var rej := Rejection(status, p, h, d);
    if status == "closed" {
      assert forall i :: 0 <= i < |ws| ==> ws[i].AddFeedback?;
    } else if rej.Err? {
      assert ws == [];
    } else if rej.value.Some? {
      assert ws == [AddFeedback(p.issueId, NoteFor(p, p.issueId, REJECTED, rej.value.value))];
    } else {
      assert ws[1] == SetStatus(p.issueId, "closed");
    }
  }

  /** The issue itself is closed exactly when it is not closed already, its status is
      needs_review, the merge happened, and a review-gate marker is strictly later than
      every reopen marker.  A call that reports the close applied has met these rules. */
  lemma AppliesIff(issues: map<string, Json>, p: Payload, d: Decoders)
    requires ShowSpec(issues, p.issueId).Ok?
    requires ScanError(ExtractHistory(ShowSpec(issues, p.issueId).value, d)).None?
    ensures var issue := ShowSpec(issues, p.issueId).value;
      var rules := NormalizedStatus(issue) == "needs_review" && p.merged && GateAfterEveryReopen(ExtractHistory(issue, d), d);
      (SetStatus(p.issueId, "closed") in ApplySpec(issues, p, d).writes <==> rules)
      && (ApplySpec(issues, p, d).result == Ok(CloseResult(true, REASON_APPLIED, APPLIED)) ==> rules)
  {
    var issue := ShowSpec(issues, p.issueId).value;
    RulesPassIff(NormalizedStatus(issue), p, ExtractHistory(issue, d), d);
    ClosesIffRulesPass(issues, p, d);
  }

  /** Every write of the cascade belongs to a linked parent: status writes close it, and
      each feedback is the parent-closed note naming the child. */
  lemma {:induction false} CascadeWritesParents(issues: map<string, Json>, parents: seq<string>, p: Payload)
    ensures forall w :: w in CascadeSpec(issues, parents, p).writes ==>
      w.id in parents
      && (w.SetStatus? ==> w.status == "closed")
      && (w.AddFeedback? ==> w.note == NoteFor(p, w.id, PARENT_CLOSED_BY_FIX, "closed by fix child " + p.issueId))
    decreases |parents|
  {
    if parents != [] {
      var init := parents[..|parents| - 1];
      CascadeWritesParents(issues, init, p);
      assert forall q :: q in init ==> q in parents;
    }
  }

  /** The cascade closes a parent only when it reads as needs_review when reached. */
  lemma {:induction false} CascadeClosesFresh(issues: map<string, Json>, parents: seq<string>, p: Payload)
    ensures ClosesFresh(issues, CascadeSpec(issues, parents, p).writes)
    decreases |parents|
  {
    if parents != [] {
      var prior := CascadeSpec(issues, parents[..|parents| - 1], p);
      CascadeClosesFresh(issues, parents[..|parents| - 1], p);
      if prior.error.None? {
        var cur := ApplyAll(issues, prior.writes);
        var id := parents[|parents| - 1];
        var step := ParentStep(cur, id, p);
        if step.Ok? {
          ParentStepFresh(cur, id, p);
          ClosesFreshAppend(issues, prior.writes, step.value);
        }
      }
    }
  }

  /** The writes for one parent are fresh against the state they are made in. */
  lemma ParentStepFresh(cur: map<string, Json>, id: string, p: Payload)
    requires ParentStep(cur, id, p).Ok?
    ensures ClosesFresh(cur, ParentStep(cur, id, p).value)
  {
    var w := ParentStep(cur, id, p).value;
    if w != [] {
      assert w == [w[0], w[1]] && w[0] == SetStatus(id, "closed");
      assert FreshWrite(cur, w[0]);
      ClosesFreshPair(cur, w[0], w[1], []);
      assert [w[0], w[1]] + [] == w;
    }
  }

  lemma ClosesFreshPair(issues: map<string, Json>, w0: Write, w1: Write, rest: seq<Write>)
    requires FreshWrite(issues, w0) && w1.AddFeedback?
    requires ClosesFresh(Step(Step(issues, w0), w1), rest)
    ensures ClosesFresh(issues, [w0, w1] + rest)
  {
    assert ([w0, w1] + rest)[1..] == [w1] + rest;
    assert ([w1] + rest)[1..] == rest;
  }

  lemma {:induction false} ClosesFreshAppend(issues: map<string, Json>, a: seq<Write>, b: seq<Write>)
    requires ClosesFresh(issues, a) && ClosesFresh(ApplyAll(issues, a), b)
    ensures ClosesFresh(issues, a + b)
    decreases |a|
  {
    if a == [] {
      assert a + b == b;
    } else {
      assert (a + b)[0] == a[0];
      assert (a + b)[1..] == a[1..] + b;
      ClosesFreshAppend(Step(issues, a[0]), a[1..], b);
    }
  }

  lemma {:induction false} ClosesFreshOnlyCloses(issues: map<string, Json>, ws: seq<Write>)
    requires ClosesFresh(issues, ws)
    ensures OnlyCloses(ws)
    decreases |ws|
  {
    if ws != [] {
      ClosesFreshOnlyCloses(Step(issues, ws[0]), ws[1..]);
      forall i | 0 <= i < |ws| && ws[i].SetStatus? ensures ws[i].status == "closed" {
        if i > 0 { assert ws[i] == ws[1..][i - 1]; }
      }
    }
  }

  lemma {:induction false} FeedbackClosesFresh(issues: map<string, Json>, ws: seq<Write>)
    requires forall i :: 0 <= i < |ws| ==> ws[i].AddFeedback?
    ensures ClosesFresh(issues, ws)
    decreases |ws|
  {
    if ws != [] {
      assert forall i :: 0 <= i < |ws[1..]| ==> ws[1..][i] == ws[i + 1];
      FeedbackClosesFresh(issues, ws[1..]);
    }
  }

  /** Every call closes only issues it finds open for closing, one write each, and all
      its status writes close. */
  lemma ApplyClosesFresh(issues: map<string, Json>, p: Payload, d: Decoders)
    ensures ClosesFresh(issues, ApplySpec(issues, p, d).writes)
    ensures OnlyCloses(ApplySpec(issues, p, d).writes)
  {
    ApplySpecWrites(issues, p, d);
    var ws := ApplySpec(issues, p, d).writes;
    var shown := ShowSpec(issues, p.issueId);
    if shown.Ok? {
      var issue := shown.value;
      var status := NormalizedStatus(issue);
      var h := ExtractHistory(issue, d);
      if status == "closed" || Rejection(status, p, h, d) != Ok(None) {
        FeedbackClosesFresh(issues, ws);
      } else {
        var main := MainCloseWrites(p);
        MainWritesFresh(issues, p);
        if IsFixChild(issue) {
          CascadeClosesFresh(ApplyAll(issues, main), ParentIds(issue), p);
          ClosesFreshAppend(issues, main, CascadeSpec(ApplyAll(issues, main), ParentIds(issue), p).writes);
        } else {
          assert ws == main + [];
          assert ws == main;
        }
        assert ClosesFresh(issues, ws);
      }
    } else {
      assert ws == [];
    }
    ClosesFreshOnlyCloses(issues, ws);
  }

  /** The evidence note, the close and the applied note close an open issue once. */
  lemma MainWritesFresh(issues: map<string, Json>, p: Payload)
    requires p.issueId in issues && issues[p.issueId].JObj? && !IsClosed(issues, p.issueId)
    ensures ClosesFresh(issues, MainCloseWrites(p))
  {
    var main := MainCloseWrites(p);
    var s1 := Step(issues, main[0]);
    var s2 := Step(s1, main[1]);
    assert s1 == issues;
    assert FreshWrite(s1, main[1]);
    assert ClosesFresh(s2, main[1..][1..]) by {
      assert main[1..][1..][1..] == [];
    }
  }

  /** The at-most-once theorem: a call keeps the invariant that no issue is closed twice,
      whatever the payload, the tracker state and the history. */
  lemma ApplyKeepsAtMostOnce(issues: map<string, Json>, log: seq<Write>, p: Payload, d: Decoders)
    requires AtMostOnceClosed(issues, log)
    ensures AtMostOnceClosed(ApplyAll(issues, ApplySpec(issues, p, d).writes), log + ApplySpec(issues, p, d).writes)
  {
    ApplyClosesFresh(issues, p, d);
    ClosesFreshKeepsAtMostOnce(issues, log, ApplySpec(issues, p, d).writes);
  }

  /** A replay after an applied close, in this model's tracker, where notes are only
      logged and never join the history `show_issue` returns: for an issue that is not
      a fix child and whose history lacked the applied marker, the replay backfills a
      second MERGE_CLOSE_APPLIED note before the skip note. */
  lemma ReplayAfterApplyBackfills(issues: map<string, Json>, p: Payload, d: Decoders)
    requires ApplySpec(issues, p, d).result == Ok(CloseResult(true, REASON_APPLIED, APPLIED))
    ensures ShowSpec(issues, p.issueId).Ok?
    ensures var replay := ApplySpec(ApplyAll(issues, ApplySpec(issues, p, d).writes), p, d);
      var issue := ShowSpec(issues, p.issueId).value;
      var h := ExtractHistory(issue, d);
      !IsFixChild(issue) ==>
        replay.writes == AlreadyClosedWrites(p, h)
        && (!HasAppliedMarker(h) ==>
              replay.writes == [AddFeedback(p.issueId, NoteFor(p, p.issueId, APPLIED, "backfill merge-close marker for already closed issue")),
                                AddFeedback(p.issueId, NoteFor(p, p.issueId, SKIPPED_ALREADY_CLOSED, REASON_ALREADY_CLOSED))])
  {
    ApplySpecWrites(issues, p, d);
    if IsFixChild(ShowSpec(issues, p.issueId).value) {
      return;
    }
    ClosesIffRulesPass(issues, p, d);
    var main := MainCloseWrites(p);
    assert ApplySpec(issues, p, d).writes == main;
    ApplyAllThree(issues, main[0], main[1], main[2]);
    var after := Step(issues, main[1]);
    assert ApplyAll(issues, main) == after;
    var raw := issues[p.issueId];
    WithStatusShows(raw, "closed");
    var issue := ShowSpec(issues, p.issueId).value;
    assert ShowSpec(after, p.issueId) == Ok(issue["status" := JStr("closed")]);
    ClosedReadsClosed(issue);
    HistoryIgnoresStatus(issue, JStr("closed"), HistoryKeys, d);
  }

  /** Re-running a call with the same payload after it applied (the replay a lost
      checkpoint causes) writes no status and reports the skip. */
  lemma ReplayAfterApplyIsSkip(issues: map<string, Json>, p: Payload, d: Decoders)
    requires ApplySpec(issues, p, d).result == Ok(CloseResult(true, REASON_APPLIED, APPLIED))
    ensures var after := ApplyAll(issues, ApplySpec(issues, p, d).writes);
      ApplySpec(after, p, d).result == Ok(CloseResult(false, REASON_ALREADY_CLOSED, SKIPPED_ALREADY_CLOSED))
      && forall w :: w in ApplySpec(after, p, d).writes ==> !w.SetStatus?
  {
    ApplySpecWrites(issues, p, d);
    var ws := ApplySpec(issues, p, d).writes;
    var issue := ShowSpec(issues, p.issueId).value;
    var main := MainCloseWrites(p);
    var rest := ws[3..];
    assert ws == main + rest;
    var s1 := Step(Step(issues, main[0]), main[1]);
    ApplyAllThree(issues, main[0], main[1], main[2]);
    assert ApplyAll(issues, main) == s1;
    StepCloses(issues, p.issueId);
    ApplyClosesFresh(issues, p, d);
    assert OnlyCloses(rest) by {
      forall i | 0 <= i < |rest| && rest[i].SetStatus? ensures rest[i].status == "closed" {
        assert rest[i] == ws[i + 3];
      }
    }
    ClosedStaysClosed(s1, rest, p.issueId);
    ApplyAllAppend(issues, main, rest);
    AlreadyClosedSkips(ApplyAll(issues, ws), p, d);
  }

  // ---------------------------------------------------------------------------
  // A tracker write that raises

  /** The outcome of a call in which one of the tracker's writes raised: the writes
      that took effect before the exception, possibly including the raising one (a note
      stored remotely before a transport error), then its error escaping the call
      (nothing in the closer catches it).  With no write raising it is the whole
      outcome. */
  predicate CutShort(o: Outcome, full: Outcome) {
    o == full
    || (|o.writes| <= |full.writes| && o.writes == full.writes[..|o.writes|] && o.result.Err?)
  }

  /** Writes fresh one at a time stay so when cut short. */
  lemma {:induction false} ClosesFreshPrefix(issues: map<string, Json>, ws: seq<Write>, k: nat)
    requires k <= |ws| && ClosesFresh(issues, ws)
    ensures ClosesFresh(issues, ws[..k])
    decreases k
  {
    if k > 0 {
      ClosesFreshPrefix(Step(issues, ws[0]), ws[1..], k - 1);
      assert ws[..k][0] == ws[0];
      assert ws[..k][1..] == ws[1..][..k - 1];
    }
  }

  /** The at-most-once theorem when a write raises part-way: the writes made before it
      still close no issue twice. */
  lemma CutShortKeepsAtMostOnce(issues: map<string, Json>, log: seq<Write>, p: Payload, d: Decoders, o: Outcome)
    requires AtMostOnceClosed(issues, log) && CutShort(o, ApplySpec(issues, p, d))
    ensures AtMostOnceClosed(ApplyAll(issues, o.writes), log + o.writes)
  {
    var full := ApplySpec(issues, p, d).writes;
    ApplyClosesFresh(issues, p, d);
    ClosesFreshPrefix(issues, full, |o.writes|);
    assert o.writes == full[..|o.writes|];
    ClosesFreshKeepsAtMostOnce(issues, log, o.writes);
  }

  /** A call that closes the issue starts with the evidence note and the close. */
  lemma CloseCallStarts(issues: map<string, Json>, p: Payload, d: Decoders)
    ensures var ws := ApplySpec(issues, p, d).writes;
      SetStatus(p.issueId, "closed") in ws ==>
        |ws| >= 3 && ws[..3] == MainCloseWrites(p)
        && ShowSpec(issues, p.issueId).Ok? && NormalizedStatus(ShowSpec(issues, p.issueId).value) == "needs_review"
  {
    ApplySpecWrites(issues, p, d);
    if SetStatus(p.issueId, "closed") in ApplySpec(issues, p, d).writes {
      ClosesIffRulesPass(issues, p, d);
      var issue := ShowSpec(issues, p.issueId).value;
      var rej := Rejection(NormalizedStatus(issue), p, ExtractHistory(issue, d), d);
      assert rej == Ok(None);
    }
  }

  /** `set_issue_status` raising right after the evidence note: the state the note
      leaves is the one the call saw, so the daemon's replay of the record makes the
      same call and writes the evidence note a second time. */
  lemma FailedCloseRepeatsEvidence(issues: map<string, Json>, p: Payload, d: Decoders, e: string)
    ensures var full := ApplySpec(issues, p, d);
      SetStatus(p.issueId, "closed") in full.writes ==>
        var cut := Outcome(full.writes[..1], Err(e));
        CutShort(cut, full)
        && cut.writes == [AddFeedback(p.issueId, NoteFor(p, p.issueId, EVIDENCE_RECORDED, "merge evidence recorded"))]
        && ApplySpec(ApplyAll(issues, cut.writes), p, d) == full
  {
    CloseCallStarts(issues, p, d);
    var ws := ApplySpec(issues, p, d).writes;
    if SetStatus(p.issueId, "closed") in ws {
      assert ws[..1] == ws[..3][..1];
      FeedbackKeepsIssues(issues, ws[..1]);
    }
  }

  /** A status write leaves the feedback history as it was. */
  lemma {:induction false} HistoryIgnoresStatus(issue: map<string, Json>, v: Json, keys: seq<string>, d: Decoders)
    requires "status" !in keys
    ensures HistoryFrom(issue["status" := v], keys, d) == HistoryFrom(issue, keys, d)
    decreases |keys|
  {
    if keys != [] {
      assert Get(issue["status" := v], keys[0]) == Get(issue, keys[0]);
      HistoryIgnoresStatus(issue, v, keys[1..], d);
    }
  }

  /** The MERGE_CLOSE_APPLIED note raising right after the close: the daemon's replay
      finds the issue closed, writes no status, backfills the applied marker exactly
      when the history lacks one and reports the skip. */
  lemma FailedAppliedNoteBackfills(issues: map<string, Json>, p: Payload, d: Decoders, e: string)
    ensures var full := ApplySpec(issues, p, d);
      SetStatus(p.issueId, "closed") in full.writes ==>
        var cut := Outcome(full.writes[..2], Err(e));
        var replay := ApplySpec(ApplyAll(issues, cut.writes), p, d);
        CutShort(cut, full)
        && replay.result == Ok(CloseResult(false, REASON_ALREADY_CLOSED, SKIPPED_ALREADY_CLOSED))
        && replay.writes == AlreadyClosedWrites(p, ExtractHistory(ShowSpec(issues, p.issueId).value, d))
  {
    CloseCallStarts(issues, p, d);
    if SetStatus(p.issueId, "closed") !in ApplySpec(issues, p, d).writes {
      return;
    }
    var ws := ApplySpec(issues, p, d).writes;
    var main := MainCloseWrites(p);
    assert ws[..2] == [main[0], main[1]];
    ApplyAllTwo(issues, main[0], main[1]);
    var after := Step(issues, main[1]);
    assert ApplyAll(issues, ws[..2]) == after;
    var raw := issues[p.issueId];
    assert raw.JObj?;
    WithStatusShows(raw, "closed");
    var issue := ShowSpec(issues, p.issueId).value;
    assert ShowSpec(after, p.issueId) == Ok(issue["status" := JStr("closed")]);
    ClosedReadsClosed(issue);
    HistoryIgnoresStatus(issue, JStr("closed"), HistoryKeys, d);
  }

  // ---------------------------------------------------------------------------
  // The closer against a tracker

  /** `_latest_review_gate_marker_timestamp` and `_latest_reopen_timestamp`: one scan
      keeping the running latest time; a list or dict `event_type` raises. */
  method LatestMarkerTimestamp(history: seq<map<string, Json>>, d: Decoders, gate: bool)
    returns (r: Result<Option<int>>)
    ensures ScanError(history).Some? ==> r == Err(ScanError(history).value)
    ensures ScanError(history).None? ==>
      r == Ok(Latest(if gate then GateStamps(history, d) else ReopenStamps(history, d)))
  {
    r := ScanLatest(history, if gate then GateStamps(history, d) else ReopenStamps(history, d));
  }

  /** The scan itself, over the times `stamps[i]` read from the entries `history[i]`. */
  method ScanLatest(history: seq<map<string, Json>>, stamps: seq<Option<int>>)
    returns (r: Result<Option<int>>)
    requires |stamps| == |history|
    ensures ScanError(history).Some? ==> r == Err(ScanError(history).value)
    ensures ScanError(history).None? ==> r == Ok(Latest(stamps))
  {
    var latest: Option<int> := None;
    var i := 0;
    while i < |history|
      invariant 0 <= i <= |history|
      invariant ScanError(history[..i]).None?
      invariant latest == Latest(stamps[..i])
    {
      var et := Get(history[i], "event_type");
      if Unhashable(et) {
        ScanErrorAt(history, i);
        return Err(UnhashableMessage(et));
      }
      var t := stamps[i];
      assert stamps[..i + 1][..i] == stamps[..i];
      if t.Some? && (latest.None? || t.value > latest.value) {
        latest := t;
      }
      ScanErrorExtend(history, i);
      i := i + 1;
    }
    assert history[..i] == history && stamps[..i] == stamps;
    r := Ok(latest);
  }

  lemma ScanErrorAt(history: seq<map<string, Json>>, i: nat)
    requires i < |history| && ScanError(history[..i]).None? && Unhashable(Get(history[i], "event_type"))
    ensures ScanError(history) == Some(UnhashableMessage(Get(history[i], "event_type")))
    decreases i
  {
    if i > 0 {
      assert !Unhashable(Get(history[..i][0], "event_type"));
      assert history[1..][..i - 1] == history[..i][1..];
      ScanErrorAt(history[1..], i - 1);
    }
  }

  lemma ScanErrorExtend(history: seq<map<string, Json>>, i: nat)
    requires i < |history| && ScanError(history[..i]).None? && !Unhashable(Get(history[i], "event_type"))
    ensures ScanError(history[..i + 1]).None?
  {
    var h := history[..i + 1];
    assert h[..i] == history[..i];
    forall j | 0 <= j < |h| ensures !Unhashable(Get(h[j], "event_type")) {
      if j < i { assert h[j] == history[..i][j]; }
    }
  }

  /** The ordered rules after "not closed", with the two timestamp scans. */
  method RejectionReason(status: string, p: Payload, history: seq<map<string, Json>>, d: Decoders)
    returns (r: Result<Option<string>>)
    ensures r == Rejection(status, p, history, d)
  {
    if status != "needs_review" {
      return Ok(Some(REASON_NOT_NEEDS_REVIEW));
    }
    if !p.merged {
      return Ok(Some(REASON_NOT_MERGED));
    }
    var gate := LatestMarkerTimestamp(history, d, true);
    if gate.Err? {
      return Err(gate.error);
    }
    var reopen := LatestMarkerTimestamp(history, d, false);
    if gate.value.None? {
      return Ok(Some(REASON_NO_GATE));
    }
    if reopen.value.Some? && gate.value.value <= reopen.value.value {
      return Ok(Some(REASON_REOPENED));
    }
    return Ok(None);
  }

  /** One more parent extends the cascade over the prefix before it. */
  lemma CascadeExtend(s0: map<string, Json>, parents: seq<string>, k: nat, p: Payload, done: seq<Write>)
    requires k < |parents| && CascadeSpec(s0, parents[..k], p) == Cascaded(done, None)
    ensures var step := ParentStep(ApplyAll(s0, done), parents[k], p);
      CascadeSpec(s0, parents[..k + 1], p)
        == if step.Err? then Cascaded(done, Some(step.error)) else Cascaded(done + step.value, None)
  {
    assert parents[..k + 1][..k] == parents[..k];
  }

  /** What one turn of the `CloseParents` loop needs: a parent that raises ends the
      whole cascade, any other extends the prefix by its writes. */
  lemma CascadeLoopStep(s0: map<string, Json>, parents: seq<string>, k: nat, p: Payload, done: seq<Write>)
    requires k < |parents| && CascadeSpec(s0, parents[..k], p) == Cascaded(done, None)
    ensures var step := ParentStep(ApplyAll(s0, done), parents[k], p);
      && (step.Err? ==> CascadeSpec(s0, parents, p) == Cascaded(done, Some(step.error)))
      && (step.Ok? ==> CascadeSpec(s0, parents[..k + 1], p) == Cascaded(done + step.value, None)
                       && ApplyAll(s0, done + step.value) == ApplyAll(ApplyAll(s0, done), step.value))
  {
    CascadeExtend(s0, parents, k, p, done);
    var step := ParentStep(ApplyAll(s0, done), parents[k], p);
    if step.Err? {
      CascadeStops(s0, parents, k + 1, p);
    } else {
      ApplyAllAppend(s0, done, step.value);
    }
  }

  /** Once a prefix of the cascade has failed, the whole cascade is that prefix. */
  lemma {:induction false} CascadeStops(s0: map<string, Json>, parents: seq<string>, k: nat, p: Payload)
    requires k <= |parents| && CascadeSpec(s0, parents[..k], p).error.Some?
    ensures CascadeSpec(s0, parents, p) == CascadeSpec(s0, parents[..k], p)
    decreases |parents| - k
  {
    if k < |parents| {
      assert parents[..k + 1][..k] == parents[..k];
      CascadeStops(s0, parents, k + 1, p);
    } else {
      assert parents[..k] == parents;
    }
  }

  /** One turn of the cascade loop: show the parent, and close it only when it is in
      needs_review. */
  method CloseParent(t: Tracker, id: string, p: Payload) returns (error: Option<string>)
    modifies t
    ensures var step := ParentStep(old(t.issues), id, p);
      if step.Err? then error == Some(step.error) && t.log == old(t.log) && t.issues == old(t.issues)
      else error.None? && t.log == old(t.log) + step.value && t.issues == ApplyAll(old(t.issues), step.value)
  {
    var parent := t.ShowIssue(id);
    if parent.Err? {
      return Some(parent.error);
    }
    ghost var before := t.issues;
    if NormalizedStatus(parent.value) == "needs_review" {
      t.SetIssueStatus(id, "closed");
      t.AddIssueFeedback(id, NoteFor(p, id, PARENT_CLOSED_BY_FIX, "closed by fix child " + p.issueId));
      ApplyAllTwo(before, SetStatus(id, "closed"), AddFeedback(id, NoteFor(p, id, PARENT_CLOSED_BY_FIX, "closed by fix child " + p.issueId)));
    }
    error := None;
  }

  /** The loop over the linked parents of a fix child. */
  method CloseParents(t: Tracker, parents: seq<string>, p: Payload) returns (error: Option<string>)
    modifies t
    ensures t.log == old(t.log) + CascadeSpec(old(t.issues), parents, p).writes
    ensures t.issues == ApplyAll(old(t.issues), CascadeSpec(old(t.issues), parents, p).writes)
    ensures error == CascadeSpec(old(t.issues), parents, p).error
  {
    ghost var s0 := t.issues;
    ghost var log0 := t.log;
    ghost var done: seq<Write> := [];
    var k := 0;
    while k < |parents|
      invariant 0 <= k <= |parents|
      invariant t.log == log0 + done
      invariant t.issues == ApplyAll(s0, done)
      invariant CascadeSpec(s0, parents[..k], p) == Cascaded(done, None)
    {
      ghost var step := ParentStep(t.issues, parents[k], p);
      CascadeLoopStep(s0, parents, k, p, done);
      error := CloseParent(t, parents[k], p);
      if error.Some? {
        return;
      }
      done := done + step.value;
      k := k + 1;
    }
    assert parents[..k] == parents;
    error := None;
  }

  // The branches of `ApplySpec`, one lemma each, for the method below.

  lemma ApplySpecMissing(issues: map<string, Json>, p: Payload, d: Decoders)
    requires ShowSpec(issues, p.issueId).Err?
    ensures ApplySpec(issues, p, d) == Outcome([], Err(ShowSpec(issues, p.issueId).error))
  {
  }

  lemma ApplySpecClosed(issues: map<string, Json>, p: Payload, d: Decoders, issue: map<string, Json>)
    requires ShowSpec(issues, p.issueId) == Ok(issue) && NormalizedStatus(issue) == "closed"
    ensures ApplySpec(issues, p, d)
      == Outcome(AlreadyClosedWrites(p, ExtractHistory(issue, d)),
                 Ok(CloseResult(false, REASON_ALREADY_CLOSED, SKIPPED_ALREADY_CLOSED)))
  {
  }

  lemma ApplySpecRaises(issues: map<string, Json>, p: Payload, d: Decoders, issue: map<string, Json>)
    requires ShowSpec(issues, p.issueId) == Ok(issue) && NormalizedStatus(issue) != "closed"
    requires Rejection(NormalizedStatus(issue), p, ExtractHistory(issue, d), d).Err?
    ensures ApplySpec(issues, p, d)
      == Outcome([], Err(Rejection(NormalizedStatus(issue), p, ExtractHistory(issue, d), d).error))
  {
  }

  lemma ApplySpecRejects(issues: map<string, Json>, p: Payload, d: Decoders, issue: map<string, Json>, reason: string)
    requires ShowSpec(issues, p.issueId) == Ok(issue) && NormalizedStatus(issue) != "closed"
    requires Rejection(NormalizedStatus(issue), p, ExtractHistory(issue, d), d) == Ok(Some(reason))
    ensures ApplySpec(issues, p, d)
      == Outcome([AddFeedback(p.issueId, NoteFor(p, p.issueId, REJECTED, reason))],
                 Ok(CloseResult(false, reason, REJECTED)))
  {
  }

  lemma ApplySpecCloses(issues: map<string, Json>, p: Payload, d: Decoders, issue: map<string, Json>)
    requires ShowSpec(issues, p.issueId) == Ok(issue) && NormalizedStatus(issue) != "closed"
    requires Rejection(NormalizedStatus(issue), p, ExtractHistory(issue, d), d) == Ok(None)
    ensures var c := if IsFixChild(issue) then CascadeSpec(ApplyAll(issues, MainCloseWrites(p)), ParentIds(issue), p)
                     else Cascaded([], None);
      ApplySpec(issues, p, d)
        == Outcome(MainCloseWrites(p) + c.writes,
                   if c.error.Some? then Err(c.error.value) else Ok(CloseResult(true, REASON_APPLIED, APPLIED)))
  {
  }

  /** `apply_merge_close` performed against the tracker: it writes exactly what
      `ApplySpec` says, in order, and returns its result; it keeps the at-most-once
      invariant. */
  method ApplyMergeClose(t: Tracker, p: Payload, d: Decoders) returns (r: Result<CloseResult>)
    modifies t
    ensures t.log == old(t.log) + ApplySpec(old(t.issues), p, d).writes
    ensures t.issues == ApplyAll(old(t.issues), ApplySpec(old(t.issues), p, d).writes)
    ensures r == ApplySpec(old(t.issues), p, d).result
    ensures old(t.Valid()) ==> t.Valid()
  {
    ghost var issues0 := t.issues;
    ghost var log0 := t.log;
    if AtMostOnceClosed(issues0, log0) {
      ApplyKeepsAtMostOnce(issues0, log0, p, d);
    }
    var shown := t.ShowIssue(p.issueId);
    if shown.Err? {
      ApplySpecMissing(issues0, p, d);
      assert log0 + [] == log0;
      return Err(shown.error);
    }
    var issue := shown.value;
    var id := p.issueId;
    var status := NormalizedStatus(issue);
    var history := ExtractHistory(issue, d);

    if status == "closed" {
      ApplySpecClosed(issues0, p, d, issue);
      FeedbackKeepsIssues(issues0, AlreadyClosedWrites(p, history));
      r := SkipClosed(t, p, history);
      return;
    }
    var rejection := RejectionReason(status, p, history, d);
    if rejection.Err? {
      ApplySpecRaises(issues0, p, d, issue);
      assert log0 + [] == log0;
      return Err(rejection.error);
    }
    if rejection.value.Some? {
      ApplySpecRejects(issues0, p, d, issue, rejection.value.value);
      FeedbackKeepsIssues(issues0, [AddFeedback(id, NoteFor(p, id, REJECTED, rejection.value.value))]);
      r := Reject(t, p, rejection.value.value);
      return;
    }
    ApplySpecCloses(issues0, p, d, issue);
    r := CloseWithCascade(t, p, issue);
  }

  /** The already-closed branch: backfill the applied marker if the history lacks one,
      then the skip note; no status write. */
  method SkipClosed(t: Tracker, p: Payload, history: seq<map<string, Json>>) returns (r: Result<CloseResult>)
    modifies t
    ensures t.log == old(t.log) + AlreadyClosedWrites(p, history) && t.issues == old(t.issues)
    ensures r == Ok(CloseResult(false, REASON_ALREADY_CLOSED, SKIPPED_ALREADY_CLOSED))
  {
    var id := p.issueId;
    if !HasAppliedMarker(history) {
      t.AddIssueFeedback(id, NoteFor(p, id, APPLIED, "backfill merge-close marker for already closed issue"));
    }
    t.AddIssueFeedback(id, NoteFor(p, id, SKIPPED_ALREADY_CLOSED, REASON_ALREADY_CLOSED));
    r := Ok(CloseResult(false, REASON_ALREADY_CLOSED, SKIPPED_ALREADY_CLOSED));
  }

  /** `_reject`: one rejection note, no status write. */
  method Reject(t: Tracker, p: Payload, reason: string) returns (r: Result<CloseResult>)
    modifies t
    ensures t.log == old(t.log) + [AddFeedback(p.issueId, NoteFor(p, p.issueId, REJECTED, reason))]
    ensures t.issues == old(t.issues)
    ensures r == Ok(CloseResult(false, reason, REJECTED))
  {
    t.AddIssueFeedback(p.issueId, NoteFor(p, p.issueId, REJECTED, reason));
    r := Ok(CloseResult(false, reason, REJECTED));
  }

  lemma LogGrows(log: seq<Write>, a: seq<Write>, b: seq<Write>)
    ensures log + a + b == log + (a + b)
    ensures a + [] == a
  {
  }

  /** The writes once every rule passed: evidence note, status closed, applied note,
      then the parent cascade of a fix child. */
  method CloseWithCascade(t: Tracker, p: Payload, issue: map<string, Json>) returns (r: Result<CloseResult>)
    modifies t
    ensures var c := if IsFixChild(issue) then CascadeSpec(ApplyAll(old(t.issues), MainCloseWrites(p)), ParentIds(issue), p)
                     else Cascaded([], None);
      && t.log == old(t.log) + (MainCloseWrites(p) + c.writes)
      && t.issues == ApplyAll(old(t.issues), MainCloseWrites(p) + c.writes)
      && r == if c.error.Some? then Err(c.error.value) else Ok(CloseResult(true, REASON_APPLIED, APPLIED))
  {
    ghost var issues0 := t.issues;
    ghost var log0 := t.log;
    var id := p.issueId;
    t.AddIssueFeedback(id, NoteFor(p, id, EVIDENCE_RECORDED, "merge evidence recorded"));
    t.SetIssueStatus(id, "closed");
    t.AddIssueFeedback(id, NoteFor(p, id, APPLIED, REASON_APPLIED));
    ghost var main := MainCloseWrites(p);
    ApplyAllThree(issues0, main[0], main[1], main[2]);
    assert t.log == log0 + main;
    assert t.issues == ApplyAll(issues0, main);

    if IsFixChild(issue) {
      var parents := LinkedParentIssueIds(issue);
      var error := CloseParents(t, parents, p);
      ghost var cascade := CascadeSpec(ApplyAll(issues0, main), parents, p).writes;
      ApplyAllAppend(issues0, main, cascade);
      LogGrows(log0, main, cascade);
      if error.Some? {
        return Err(error.value);
      }
    } else {
      LogGrows(log0, main, []);
    }
    r := Ok(CloseResult(true, REASON_APPLIED, APPLIED));
  }
}

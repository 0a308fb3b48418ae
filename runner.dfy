/** The runner: ready issues become candidates ordered by (priority, ready_at,
    issue_id); a worker pool dispatches as many of them as it has free slots, and a
    session runner claims one issue, renders its prompt and hands it to the session
    orchestrator, moving the issue back to `open` when anything after the claim fails. */
module Runner {
  import opened Common
  import opened Snapshot
  import opened Models
  import opened SessionLoop
  import opened Claim
  import PromptRenderer

  const OPEN := "open"
  const ISSUE_ID_ERROR := "issue_id must be non-empty string"
  const PRIORITY_TYPE_ERROR := "priority must be int"
  const PRIORITY_RANGE_ERROR := "priority must be between 0 and 4"
  const READY_AT_ERROR := "ready_at must be datetime"
  const MAX_WORKERS_ERROR := "max_workers must be positive"
  const NOT_A_MAPPING := "show_issue payload must be a mapping"

  // ---------------------------------------------------------------------------
  // Candidates

  /** A ready issue as the runner ranks it; `readyAt` is the ready instant in seconds. */
  datatype Candidate = Candidate(issueId: string, taskId: string, priority: int, readyAt: int)

  /** The text of a `KeyError` for a missing dict key. */
  function KeyErrorText(name: string): string { "'" + name + "'" }

  /** The text of an `AttributeError`, without the type name Python puts in front. */
  function AttributeErrorText(name: string): string { "object has no attribute '" + name + "'" }

  /** `_read_attr`: a dict is indexed, anything else is asked for the attribute. */
  function ReadAttr(issue: Attr, name: string): Result<Attr> {
    match issue
    case Dict(fields, _) => if name in fields then Ok(fields[name]) else Err(KeyErrorText(name))
    case Obj(attrs, _) => if name in attrs then Ok(attrs[name]) else Err(AttributeErrorText(name))
    case _ => Err(AttributeErrorText(name))
  }

  /** `_read_optional_str`: a missing key or attribute and `None` read as `None`, any
      other value as its `str()`. */
  function ReadOptionalStr(issue: Attr, name: string): (r: Option<string>)
    ensures r.Some? ==> ReadAttr(issue, name).Ok? && r.value == Models.PyStr(ReadAttr(issue, name).value)
    ensures r.None? <==> ReadAttr(issue, name).Err? || ReadAttr(issue, name).value.Null?
  {
    match issue
    case Dict(fields, _) => if name !in fields || fields[name].Null? then None else Some(Models.PyStr(fields[name]))
    case Obj(attrs, _) => if name !in attrs || attrs[name].Null? then None else Some(Models.PyStr(attrs[name]))
    case _ => None
  }

  /** `task_id or issue_id`: an empty or missing task id falls back to the issue id. */
  function ResolvedTask(issueId: string, taskId: Option<string>): (r: string)
    ensures r == issueId || (taskId == Some(r) && r != "")
    ensures taskId.Some? && taskId.value != "" ==> r == taskId.value
  {
    if taskId.Some? && taskId.value != "" then taskId.value else issueId
  }

  /** `_as_candidate`: the checks run in the order issue id, priority type, priority
      range, ready instant; a missing field fails with its lookup error. */
  function AsCandidate(issue: Attr): (r: Result<Candidate>)
    ensures r.Ok? ==> !IsBlank(r.value.issueId) && r.value.taskId != "" && 0 <= r.value.priority <= 4
  {
    var idRaw := ReadAttr(issue, "issue_id");
    if idRaw.Err? then Err(idRaw.error)
    else if !idRaw.value.Text? || IsBlank(idRaw.value.s) then Err(ISSUE_ID_ERROR)
    else
      var issueId := idRaw.value.s;
      var taskId := ResolvedTask(issueId, ReadOptionalStr(issue, "task_id"));
      var priority := ReadAttr(issue, "priority");
      if priority.Err? then Err(priority.error)
      else if !priority.value.Int? then Err(PRIORITY_TYPE_ERROR)
      else if priority.value.i < 0 || priority.value.i > 4 then Err(PRIORITY_RANGE_ERROR)
      else
        var readyAt := ReadAttr(issue, "ready_at");
        if readyAt.Err? then Err(readyAt.error)
        else if !readyAt.value.Instant? then Err(READY_AT_ERROR)
        else Ok(Candidate(issueId, taskId, priority.value.i, readyAt.value.at))
  }

  /** What makes an issue a candidate: a non-blank string id, an integer (not a
      boolean) priority from 0 to 4 and a `datetime` ready instant; the candidate
      carries exactly those values and the task id when one is given. */
  lemma AcceptedCandidate(issue: Attr)
    ensures var id := ReadAttr(issue, "issue_id");
      var priority := ReadAttr(issue, "priority");
      var readyAt := ReadAttr(issue, "ready_at");
      var r := AsCandidate(issue);
      (r.Ok? <==> id.Ok? && id.value.Text? && !IsBlank(id.value.s)
                  && priority.Ok? && priority.value.Int? && 0 <= priority.value.i <= 4
                  && readyAt.Ok? && readyAt.value.Instant?)
      && (r.Ok? ==> r.value.issueId == id.value.s && r.value.priority == priority.value.i
                    && r.value.readyAt == readyAt.value.at
                    && r.value.taskId == ResolvedTask(id.value.s, ReadOptionalStr(issue, "task_id")))
  {
  }

  /** The candidates of `issues`, in their order, or the first rejection. */
  function Candidates(issues: seq<Attr>): Result<seq<Candidate>> {
    AllOk(AsCandidate, issues)
  }

  /** The list comprehension is all or nothing: it succeeds exactly when every issue is
      a candidate, keeps them one for one, and otherwise fails with the first rejection. */
  lemma CandidatesMeans(issues: seq<Attr>)
    ensures var r := Candidates(issues);
      (r.Ok? <==> forall i :: 0 <= i < |issues| ==> AsCandidate(issues[i]).Ok?)
      && (r.Ok? ==> |r.value| == |issues| && forall i :: 0 <= i < |issues| ==> r.value[i] == AsCandidate(issues[i]).value)
      && (r.Err? ==> exists i :: 0 <= i < |issues| && AsCandidate(issues[i]) == Err(r.error)
                                && forall k :: 0 <= k < i ==> AsCandidate(issues[k]).Ok?)
  {
    AllOkMeans(AsCandidate, issues);
  }

  // ---------------------------------------------------------------------------
  // Ordering

  /** The sort key `(priority, ready_at, issue_id)` compared as a tuple: `a` sorts
      strictly before `b`. */
  predicate KeyLess(a: Candidate, b: Candidate) {
    a.priority < b.priority
    || (a.priority == b.priority
        && (a.readyAt < b.readyAt || (a.readyAt == b.readyAt && StrLess(a.issueId, b.issueId))))
  }

  predicate SameKey(a: Candidate, b: Candidate) {
    a.priority == b.priority && a.readyAt == b.readyAt && a.issueId == b.issueId
  }

  /** No candidate sorts strictly before one that precedes it. */
  predicate Ordered(cs: seq<Candidate>) {
    forall i, j :: 0 <= i < j < |cs| ==> !KeyLess(cs[j], cs[i])
  }

  lemma KeyLessAsymmetric(a: Candidate, b: Candidate)
    requires KeyLess(a, b)
    ensures !KeyLess(b, a)
  {
    if a.priority == b.priority && a.readyAt == b.readyAt {
      StrLessAsymmetric(a.issueId, b.issueId);
    }
  }

  lemma KeyLessTransitive(a: Candidate, b: Candidate, c: Candidate)
    requires KeyLess(a, b) && KeyLess(b, c)
    ensures KeyLess(a, c)
  {
    if a.priority == b.priority == c.priority && a.readyAt == b.readyAt == c.readyAt {
      StrLessTransitive(a.issueId, b.issueId, c.issueId);
    }
  }

  lemma KeyLessTotal(a: Candidate, b: Candidate)
    ensures KeyLess(a, b) || KeyLess(b, a) || SameKey(a, b)
  {
    if a.priority == b.priority && a.readyAt == b.readyAt && a.issueId != b.issueId {
      StrLessTotal(a.issueId, b.issueId);
    }
  }

  /** "Does not sort before" is transitive. */
  lemma NotLessTransitive(a: Candidate, b: Candidate, c: Candidate)
    requires !KeyLess(a, b) && !KeyLess(b, c)
    ensures !KeyLess(a, c)
  {
    KeyLessTotal(a, b);
    KeyLessTotal(b, c);
    if KeyLess(b, a) && KeyLess(c, b) {
      KeyLessTransitive(c, b, a);
    }
    if KeyLess(c, a) {
      KeyLessAsymmetric(c, a);
    }
    if SameKey(a, c) {
      StrLessIrreflexive(a.issueId);
    }
  }

  /** No element of `cs` sorts strictly before `x`. */
  predicate NoneBefore(x: Candidate, cs: seq<Candidate>) {
    forall y :: y in cs ==> !KeyLess(y, x)
  }

  lemma OrderedCons(x: Candidate, cs: seq<Candidate>)
    requires NoneBefore(x, cs) && Ordered(cs)
    ensures Ordered([x] + cs)
  {
    var r := [x] + cs;
    forall i, j | 0 <= i < j < |r| ensures !KeyLess(r[j], r[i]) {
      if i == 0 {
        assert r[j] in cs;
      } else {
        assert r[i] == cs[i - 1] && r[j] == cs[j - 1];
      }
    }
  }

  /** An element that does not sort after the head of an ordered list has none before it. */
  lemma HeadBound(x: Candidate, cs: seq<Candidate>)
    requires Ordered(cs) && cs != [] && !KeyLess(cs[0], x)
    ensures NoneBefore(x, cs)
  {
    forall y | y in cs ensures !KeyLess(y, x) {
      var k :| 0 <= k < |cs| && cs[k] == y;
      if k > 0 {
        NotLessTransitive(y, cs[0], x);
      }
    }
  }

  /** One step of a stable insertion sort: `c` goes in front of the first element that
      does not sort strictly before it. */
  function Insert(c: Candidate, cs: seq<Candidate>): seq<Candidate>
    decreases |cs|
  {
    if cs == [] || !KeyLess(cs[0], c) then [c] + cs
    else [cs[0]] + Insert(c, cs[1..])
  }

  /** `sorted(candidates, key=...)`: stable, so candidates with equal keys keep their order. */
  function Sort(cs: seq<Candidate>): seq<Candidate>
    decreases |cs|
  {
    if cs == [] then [] else Insert(cs[0], Sort(cs[1..]))
  }

  lemma {:induction false} InsertMeans(c: Candidate, cs: seq<Candidate>)
    requires Ordered(cs)
    ensures Ordered(Insert(c, cs)) && multiset(Insert(c, cs)) == multiset(cs) + multiset{c}
  {
    if cs == [] {
    } else if !KeyLess(cs[0], c) {
      HeadBound(c, cs);
      OrderedCons(c, cs);
    } else {
      assert Ordered(cs[1..]);
      InsertMeans(c, cs[1..]);
      var rest := Insert(c, cs[1..]);
      assert cs == [cs[0]] + cs[1..];
      KeyLessAsymmetric(cs[0], c);
      assert NoneBefore(cs[0], cs[1..]) by {
        forall y | y in cs[1..] ensures !KeyLess(y, cs[0]) {
          var k :| 0 <= k < |cs[1..]| && cs[1..][k] == y;
          assert cs[k + 1] == y;
        }
      }
      assert NoneBefore(cs[0], rest) by {
        forall y | y in rest ensures !KeyLess(y, cs[0]) {
          assert y in multiset(cs[1..]) + multiset{c};
        }
      }
      OrderedCons(cs[0], rest);
    }
  }

  /** The sort orders its input and is a permutation of it. */
  lemma {:induction false} SortMeans(cs: seq<Candidate>)
    ensures Ordered(Sort(cs)) && multiset(Sort(cs)) == multiset(cs)
  {
    if cs != [] {
      SortMeans(cs[1..]);
      InsertMeans(cs[0], Sort(cs[1..]));
      assert cs == [cs[0]] + cs[1..];
    }
  }

  /** The first sorted candidate is one of them and no candidate sorts before it. */
  lemma FirstIsLeast(cs: seq<Candidate>)
    requires cs != []
    ensures Sort(cs) != [] && Sort(cs)[0] in cs
    ensures forall c :: c in cs ==> !KeyLess(c, Sort(cs)[0])
  {
    SortMeans(cs);
    var s := Sort(cs);
    assert |s| == |cs| by { assert |multiset(s)| == |multiset(cs)|; }
    assert s[0] in multiset(s);
    forall c | c in cs ensures !KeyLess(c, s[0]) {
      assert c in multiset(s);
      var j :| 0 <= j < |s| && s[j] == c;
      if j > 0 { assert !KeyLess(s[j], s[0]); } else { StrLessIrreflexive(c.issueId); }
    }
  }

  /** `_sorted_candidates`: every ready issue is made a candidate, then they are sorted. */
  function SortedCandidates(issues: seq<Attr>): Result<seq<Candidate>> {
    match Candidates(issues)
    case Err(e) => Err(e)
    case Ok(cs) => Ok(Sort(cs))
  }

  /** The candidates of a ready-queue answer; `Err` is the query's own failure. */
  function ReadyCandidates(ready: Result<seq<Attr>>): Result<seq<Candidate>> {
    if ready.Err? then Err(ready.error) else SortedCandidates(ready.value)
  }

  // ---------------------------------------------------------------------------
  // Selection

  function IdsOf(cs: seq<Candidate>): (r: seq<string>)
    ensures |r| == |cs| && forall i :: 0 <= i < |cs| ==> r[i] == cs[i].issueId
  {
    seq(|cs|, i requires 0 <= i < |cs| => cs[i].issueId)
  }

  /** `_select_candidates` from `cands` on, with `selected` already chosen: a candidate
      whose issue is active or already chosen is skipped, and the scan stops as soon as
      `slots` are chosen. */
  function SelectFrom(cands: seq<Candidate>, slots: int, active: set<string>, selected: seq<Candidate>): seq<Candidate>
    decreases |cands|
  {
    if cands == [] then selected
    else
      var c := cands[0];
      if c.issueId in active || c.issueId in IdsOf(selected) then SelectFrom(cands[1..], slots, active, selected)
      else if |selected| + 1 == slots then selected + [c]
      else SelectFrom(cands[1..], slots, active, selected + [c])
  }

  function Select(cands: seq<Candidate>, slots: int, active: set<string>): seq<Candidate> {
    SelectFrom(cands, slots, active, [])
  }

  lemma {:induction false} SelectFromMeans(cands: seq<Candidate>, slots: int, active: set<string>, selected: seq<Candidate>)
    requires |selected| < slots
    requires forall i :: 0 <= i < |selected| ==> selected[i].issueId !in active
    requires forall i, j :: 0 <= i < j < |selected| ==> selected[i].issueId != selected[j].issueId
    ensures var r := SelectFrom(cands, slots, active, selected);
      |selected| <= |r| <= slots && r[..|selected|] == selected && IsSubsequence(r[|selected|..], cands)
      && (forall i :: 0 <= i < |r| ==> r[i].issueId !in active)
      && (forall i, j :: 0 <= i < j < |r| ==> r[i].issueId != r[j].issueId)
      && (|r| < slots ==> forall c :: c in cands ==> c.issueId in active || c.issueId in IdsOf(r))
    decreases |cands|
  {
    var r := SelectFrom(cands, slots, active, selected);
    var n := |selected|;
    if cands == [] {
      assert r[..n] == selected && r[n..] == [];
    } else {
      var c := cands[0];
      assert forall x :: x in cands <==> x == c || x in cands[1..] by {
        assert cands == [c] + cands[1..];
      }
      if c.issueId in active || c.issueId in IdsOf(selected) {
        SelectFromMeans(cands[1..], slots, active, selected);
        SubsequenceSkip(r[n..], cands);
        if c.issueId in IdsOf(selected) {
          var k :| 0 <= k < n && IdsOf(selected)[k] == c.issueId;
          assert IdsOf(r)[k] == c.issueId;
        }
      } else if n + 1 == slots {
        assert r[..n] == selected && r[n..] == [c];
        assert IsSubsequence([c][1..], cands[1..]);
        forall i | 0 <= i < n ensures selected[i].issueId != c.issueId {
          assert IdsOf(selected)[i] == selected[i].issueId;
        }
      } else {
        var next := selected + [c];
        forall i | 0 <= i < n ensures selected[i].issueId != c.issueId {
          assert IdsOf(selected)[i] == selected[i].issueId;
        }
        SelectFromMeans(cands[1..], slots, active, next);
        assert r[..n + 1] == next;
        assert r[..n] == selected by { assert r[..n] == next[..n]; }
        assert r[n..][0] == c && r[n..][1..] == r[n + 1..];
        assert IdsOf(r)[n] == c.issueId;
      }
    }
  }

  /** The selection is an ordered sub-list of the candidates with distinct, inactive
      issue ids and at most `slots` entries, and it leaves a candidate out only when its
      issue is active or already chosen or all slots are filled. */
  lemma SelectionMeans(cands: seq<Candidate>, slots: int, active: set<string>)
    requires slots >= 1
    ensures var r := Select(cands, slots, active);
      |r| <= slots && IsSubsequence(r, cands)
      && (forall i :: 0 <= i < |r| ==> r[i].issueId !in active)
      && (forall i, j :: 0 <= i < j < |r| ==> r[i].issueId != r[j].issueId)
      && (|r| < slots ==> forall c :: c in cands ==> c.issueId in active || c.issueId in IdsOf(r))
  {
    SelectFromMeans(cands, slots, active, []);
    var r := Select(cands, slots, active);
    assert r[0..] == r;
  }

  /** What the dispatcher needs of a selection: it fits the free slots and names each
      inactive issue at most once. */
  lemma SelectionFits(cands: seq<Candidate>, slots: int, active: set<string>)
    requires slots >= 1
    ensures var r := Select(cands, slots, active);
      |r| <= slots && (forall i :: 0 <= i < |r| ==> r[i].issueId !in active)
      && (forall i, j :: 0 <= i < j < |r| ==> r[i].issueId != r[j].issueId)
  {
    SelectionMeans(cands, slots, active);
  }

  /** `_select_candidates`, with `active` the issues already running. */
  method SelectCandidates(candidates: seq<Candidate>, slots: int, active: set<string>) returns (selected: seq<Candidate>)
    ensures selected == Select(candidates, slots, active)
  {
    selected := [];
    var seen: set<string> := {};
    var i := 0;
    while i < |candidates|
      invariant 0 <= i <= |candidates|
      invariant forall id :: id in seen <==> id in IdsOf(selected)
      invariant Select(candidates, slots, active) == SelectFrom(candidates[i..], slots, active, selected)
    {
      var c := candidates[i];
      assert candidates[i..][0] == c && candidates[i..][1..] == candidates[i + 1..];
      if c.issueId in active || c.issueId in seen {
        i := i + 1;
        continue;
      }
      assert IdsOf(selected + [c]) == IdsOf(selected) + [c.issueId];
      selected := selected + [c];
      seen := seen + {c.issueId};
      if |selected| == slots {
        return;
      }
      i := i + 1;
    }
  }

  // ---------------------------------------------------------------------------
  // The worker pool

  /** A job that is done: its issue and the exception its result re-raises, if any. */
  datatype Done = Done(issueId: string, raised: Option<string>)

  /** `_collect_finished`: the done jobs are popped in the pool's order, and the first
      whose result raises stops the collection with that exception, leaving the later
      ones active. */
  function Collect(active: set<string>, finished: seq<Done>): (set<string>, Option<string>)
    decreases |finished|
  {
    if finished == [] then (active, None)
    else
      var rest := active - {finished[0].issueId};
      if finished[0].raised.Some? then (rest, finished[0].raised)
      else Collect(rest, finished[1..])
  }

  function DoneIds(finished: seq<Done>, n: nat): set<string>
    requires n <= |finished|
  {
    set k | 0 <= k < n :: finished[k].issueId
  }

  lemma DoneIdsCons(finished: seq<Done>, n: nat)
    requires 1 <= n <= |finished|
    ensures DoneIds(finished, n) == {finished[0].issueId} + DoneIds(finished[1..], n - 1)
  {
    var tail := finished[1..];
    forall x | x in DoneIds(finished, n) ensures x in DoneIds(tail, n - 1) || x == finished[0].issueId {
      var k :| 0 <= k < n && finished[k].issueId == x;
      if k > 0 { assert tail[k - 1] == finished[k]; }
    }
    forall x | x in DoneIds(tail, n - 1) ensures x in DoneIds(finished, n) {
      var k :| 0 <= k < n - 1 && tail[k].issueId == x;
      assert finished[k + 1] == tail[k];
    }
  }

  /** Collecting drops every done job when none raised; otherwise it re-raises the
      first exception, having dropped the jobs up to and including the one that
      raised and no others. */
  lemma {:induction false} CollectMeans(active: set<string>, finished: seq<Done>)
    ensures var (left, raised) := Collect(active, finished);
      && (raised.None? <==> forall k :: 0 <= k < |finished| ==> finished[k].raised.None?)
      && (raised.None? ==> left == active - DoneIds(finished, |finished|))
      && (raised.Some? ==>
            exists k :: (&& 0 <= k < |finished| && finished[k].raised == raised
                         && (forall j :: 0 <= j < k ==> finished[j].raised.None?)
                         && left == active - DoneIds(finished, k + 1)))
    decreases |finished|
  {
    if finished != [] {
      var rest := active - {finished[0].issueId};
      var tail := finished[1..];
      if finished[0].raised.Some? {
        assert DoneIds(finished, 1) == {finished[0].issueId};
      } else {
        CollectMeans(rest, tail);
        var (left, raised) := Collect(rest, tail);
        if raised.None? {
          forall k | 0 <= k < |finished| ensures finished[k].raised.None? {
            if k > 0 { assert finished[k] == tail[k - 1]; }
          }
          DoneIdsCons(finished, |finished|);
        } else {
          var k :| 0 <= k < |tail| && tail[k].raised == raised
                   && (forall j :: 0 <= j < k ==> tail[j].raised.None?)
                   && left == rest - DoneIds(tail, k + 1);
          assert finished[k + 1] == tail[k];
          forall j | 0 <= j < k + 1 ensures finished[j].raised.None? {
            if j > 0 { assert finished[j] == tail[j - 1]; }
          }
          DoneIdsCons(finished, k + 2);
        }
      }
    }
  }

  /** `WorkerPoolDispatcher`: `active` holds the issues with a job in the pool and
      `submitted` every issue handed to the pool, in order. */
  class WorkerPoolDispatcher {
    const maxWorkers: int
    var active: set<string>
    var submitted: seq<string>

    /** The pool never holds more jobs than it has workers. */
    predicate Valid()
      reads this
    {
      maxWorkers > 0 && |active| <= maxWorkers
    }

    constructor (maxWorkers: int)
      requires maxWorkers > 0
      ensures Valid() && this.maxWorkers == maxWorkers && active == {} && submitted == []
    {
      this.maxWorkers := maxWorkers;
      active := {};
      submitted := [];
    }

    /** `_collect_finished`: `finished` are the jobs done by now, in the pool's order. */
    method CollectFinished(finished: seq<Done>) returns (raised: Option<string>)
      requires Valid()
      modifies this`active
      ensures Valid()
      ensures (active, raised) == Collect(old(active), finished)
    {
      var i := 0;
      while i < |finished|
        invariant 0 <= i <= |finished|
        invariant Valid()
        invariant Collect(old(active), finished) == Collect(active, finished[i..])
      {
        assert finished[i..][0] == finished[i] && finished[i..][1..] == finished[i + 1..];
        active := active - {finished[i].issueId};
        if finished[i].raised.Some? {
          return finished[i].raised;
        }
        i := i + 1;
      }
      return None;
    }

    /** `poll_and_dispatch_once`: `finished` are the jobs done by now, in the pool's
        order. A job whose result raises makes the call raise before the ready queue is
        read; with no free slot the queue is not read either; otherwise the selected
        issues become active, each handed to the pool once, and their ids are returned
        in order. */
    method PollAndDispatchOnce(gateway: Gateway, finished: seq<Done>) returns (r: Result<seq<string>>)
      requires Valid()
      modifies this, gateway`readyQueries
      ensures Valid()
      ensures var (live, raised) := Collect(old(active), finished);
        var slots := maxWorkers - |live|;
        var cs := ReadyCandidates(gateway.ready);
        (raised.Some? ==>
              r == Err(raised.value) && gateway.readyQueries == old(gateway.readyQueries)
              && active == live && submitted == old(submitted))
        && (raised.None? && slots <= 0 ==>
              r == Ok([]) && gateway.readyQueries == old(gateway.readyQueries)
              && active == live && submitted == old(submitted))
        && (raised.None? && slots > 0 ==> gateway.readyQueries == old(gateway.readyQueries) + 1)
        && (raised.None? && slots > 0 && cs.Err? ==> r == Err(cs.error) && active == live && submitted == old(submitted))
        && (raised.None? && slots > 0 && cs.Ok? ==>
              var ids := IdsOf(Select(cs.value, slots, live));
              r == Ok(ids) && (forall x :: x in active <==> x in live || x in ids) && submitted == old(submitted) + ids)
    {
      var raised := CollectFinished(finished);
      if raised.Some? {
        return Err(raised.value);
      }
      var slots := maxWorkers - |active|;
      if slots <= 0 {
        return Ok([]);
      }
      var ready := gateway.GetReadyIssues();
      if ready.Err? {
        return Err(ready.error);
      }
      var cs := SortedCandidates(ready.value);
      if cs.Err? {
        return Err(cs.error);
      }
      var selected := SelectCandidates(cs.value, slots, active);
      SelectionFits(cs.value, slots, active);
      Submit(selected);
      r := Ok(IdsOf(selected));
    }

    /** The dispatch loop: each selected issue becomes active and is handed to the pool. */
    method Submit(selected: seq<Candidate>)
      requires forall i :: 0 <= i < |selected| ==> selected[i].issueId !in active
      requires forall i, j :: 0 <= i < j < |selected| ==> selected[i].issueId != selected[j].issueId
      modifies this`active, this`submitted
      ensures forall x :: x in active <==> x in old(active) || x in IdsOf(selected)
      ensures |active| == |old(active)| + |selected|
      ensures submitted == old(submitted) + IdsOf(selected)
    {
      var ids: seq<string> := [];
      var k := 0;
      while k < |selected|
        invariant 0 <= k <= |selected|
        invariant |ids| == k && forall j :: 0 <= j < k ==> ids[j] == selected[j].issueId
        invariant forall x :: x in active <==> x in old(active) || x in ids
        invariant |active| == |old(active)| + k
        invariant submitted == old(submitted) + ids
      {
        var id := selected[k].issueId;
        assert forall j :: 0 <= j < k ==> ids[j] != id;
        ids := ids + [id];
        active := active + {id};
        submitted := submitted + [id];
        k := k + 1;
      }
      assert ids == IdsOf(selected);
    }
  }

  /** `WorkerPoolDispatcher(...)`: a pool needs at least one worker. */
  method NewDispatcher(maxWorkers: int) returns (r: Result<WorkerPoolDispatcher>)
    ensures r.Err? <==> maxWorkers <= 0
    ensures r.Err? ==> r.error == MAX_WORKERS_ERROR
    ensures r.Ok? ==> fresh(r.value) && r.value.Valid() && r.value.maxWorkers == maxWorkers
                      && r.value.active == {} && r.value.submitted == []
  {
    if maxWorkers <= 0 {
      return Err(MAX_WORKERS_ERROR);
    }
    var d := new WorkerPoolDispatcher(maxWorkers);
    r := Ok(d);
  }

  // ---------------------------------------------------------------------------
  // One session

  /** `_coerce_issue_payload`: the mapping under "issue" when there is one, else the
      payload itself when it is a mapping. */
  function CoerceIssuePayload(payload: Attr): (r: Result<map<string, Attr>>)
    ensures r.Err? <==> !payload.Dict?
  {
    if payload.Dict? && "issue" in payload.fields && payload.fields["issue"].Dict? then Ok(payload.fields["issue"].fields)
    else if payload.Dict? then Ok(payload.fields)
    else Err(NOT_A_MAPPING)
  }

  /** `_load_issue`: each of the eight fields is read in turn and turned into text. */
  function LoadIssue(shown: Result<Attr>): Result<IssueContext> {
    if shown.Err? then Err(shown.error)
    else
      var p := CoerceIssuePayload(shown.value);
      if p.Err? then Err(p.error)
      else
        var m := p.value;
        if "issue_id" !in m then Err(KeyErrorText("issue_id"))
        else if "manifest_id" !in m then Err(KeyErrorText("manifest_id"))
        else if "task_id" !in m then Err(KeyErrorText("task_id"))
        else if "gate_id" !in m then Err(KeyErrorText("gate_id"))
        else if "epic_id" !in m then Err(KeyErrorText("epic_id"))
        else if "title" !in m then Err(KeyErrorText("title"))
        else if "depends_on" !in m then Err(KeyErrorText("depends_on"))
        else if "dod_checklist_full" !in m then Err(KeyErrorText("dod_checklist_full"))
        else Ok(IssueContext(Models.PyStr(m["issue_id"]), Models.PyStr(m["manifest_id"]), Models.PyStr(m["task_id"]),
                             Models.PyStr(m["gate_id"]), Models.PyStr(m["epic_id"]), Models.PyStr(m["title"]),
                             Models.PyStr(m["depends_on"]), Models.PyStr(m["dod_checklist_full"])))
  }

  /** A loaded issue is read from the nested "issue" mapping whenever there is one, and
      it is loaded exactly when the mapping has all eight fields. */
  lemma LoadIssueMeans(payload: Attr)
    ensures var p := CoerceIssuePayload(payload);
      var r := LoadIssue(Ok(payload));
      (payload.Dict? && "issue" in payload.fields && payload.fields["issue"].Dict? ==> p == Ok(payload.fields["issue"].fields))
      && (r.Ok? <==> p.Ok? && p.value.Keys >= {"issue_id", "manifest_id", "task_id", "gate_id", "epic_id",
                                                  "title", "depends_on", "dod_checklist_full"})
      && (r.Ok? ==> r.value.issueId == Models.PyStr(p.value["issue_id"]) && r.value.title == Models.PyStr(p.value["title"]))
  {
  }

  /** The runner's settings: `keyOrder` is the order in which the renderer's key set is
      iterated, `makeSessionId` the claim's session-id factory, `now` the clock's text and
      `parses` which texts `datetime.fromisoformat` accepts. */
  datatype RunnerConfig = RunnerConfig(orchestratorId: string, template: string, keyOrder: seq<string>,
                                      makeSessionId: string -> string, now: string, parses: string -> bool)

  /** The snapshot `_emit_runner_error_snapshot` adds: a failed running session with the
      error's text as its one failed item. */
  function RunnerErrorEvent(message: string): Event {
    Event("SESSION_ERROR", "RUNNING", "FAIL", 0, 0, [message], [], None)
  }

  /** Once the claim snapshot has validated, the error snapshot of the same session does too. */
  lemma ErrorSnapshotOk(s: Session, message: string)
    requires EventOk(s, StartEvent(), CORRECTED)
    ensures EventOk(s, RunnerErrorEvent(message), CORRECTED)
  {
    assert "SESSION_ERROR" in CORRECTED.eventTypes && "RUNNING" in CORRECTED.stages && "FAIL" in CORRECTED.statuses;
  }

  /** `_emit_runner_error_snapshot`: it can raise only where the claim snapshot of the
      same session would have, so after a successful claim it always adds the snapshot. */
  method EmitRunnerErrorSnapshot(gateway: Gateway, s: Session, message: string)
    requires EventOk(s, StartEvent(), CORRECTED)
    modifies gateway`writes
    ensures gateway.writes == old(gateway.writes) + [Feedback(s.issue.issueId, RunnerErrorEvent(message))]
  {
    ErrorSnapshotOk(s, message);
    var _ := EmitSnapshot(gateway, s, RunnerErrorEvent(message), CORRECTED);
  }

  /** A session handed to the orchestrator. */
  datatype Run = Run(issue: IssueContext, prompt: string, sessionId: string, orchestratorId: string)

  /** The session orchestrator the runner hands a claimed issue to: it records each
      session and answers `outcome` (`Err` is the exception it raises). */
  class SessionOrchestrator {
    var runs: seq<Run>
    const outcome: Result<()>

    constructor (outcome: Result<()>)
      ensures runs == [] && this.outcome == outcome
    {
      runs := [];
      this.outcome := outcome;
    }

    method RunIssue(issue: IssueContext, prompt: string, sessionId: string, orchestratorId: string) returns (r: Result<()>)
      modifies this`runs
      ensures runs == old(runs) + [Run(issue, prompt, sessionId, orchestratorId)] && r == outcome
    {
      runs := runs + [Run(issue, prompt, sessionId, orchestratorId)];
      r := outcome;
    }
  }

  /** The issue and the rendered prompt, or the error that loading or rendering raises. */
  ghost function Prepared(shown: Result<Attr>, cfg: RunnerConfig): Result<(IssueContext, string)> {
    var issue := LoadIssue(shown);
    if issue.Err? then Err(issue.error)
    else
      var rendered := PromptRenderer.RenderSpec(cfg.template, PromptRenderer.IssuePayload(issue.value), cfg.keyOrder);
      if rendered.Err? then Err(rendered.error) else Ok((issue.value, rendered.value))
  }

  /** What one `claim_and_run_issue` does: its result, the tracker writes it makes and
      the sessions it hands to the orchestrator. */
  datatype Attempt = Attempt(result: Result<()>, writes: seq<Write>, runs: seq<Run>)

  /** What follows a successful claim of `issueId` under `sessionId`, given what loading
      and rendering give and what the orchestrator answers: a failure to load or render
      is reported as an error snapshot, and any failure hands the issue back to `open`. */
  function Continued(issueId: string, sessionId: string, orchestratorId: string,
                     prepared: Result<(IssueContext, string)>, outcome: Result<()>): Attempt {
    if prepared.Err? then
      Attempt(Err(prepared.error), [Feedback(issueId, RunnerErrorEvent(prepared.error)), SetStatus(issueId, OPEN)], [])
    else
      Attempt(outcome, if outcome.Err? then [SetStatus(issueId, OPEN)] else [],
              [Run(prepared.value.0, prepared.value.1, sessionId, orchestratorId)])
  }

  /** A whole attempt, given also what the claim snapshot's validation rejects: the
      claim's status write and snapshot come first. */
  function Outcome(issueId: string, sessionId: string, orchestratorId: string, rejected: Option<string>,
                   prepared: Result<(IssueContext, string)>, outcome: Result<()>): Attempt {
    var claimed := [SetStatus(issueId, IN_PROGRESS)];
    if rejected.Some? then Attempt(Err(rejected.value), claimed, [])
    else
      var c := Continued(issueId, sessionId, orchestratorId, prepared, outcome);
      Attempt(c.result, claimed + [Feedback(issueId, StartEvent())] + c.writes, c.runs)
  }

  /** The claim session `claim_and_run_issue` opens for `issueId`. */
  function RunnerSession(issueId: string, taskId: Option<string>, cfg: RunnerConfig): Session {
    ClaimSession(issueId, ResolvedTask(issueId, taskId), cfg.orchestratorId, cfg.makeSessionId(issueId), cfg.now, cfg.parses)
  }

  ghost function ClaimAndRunSpec(issueId: string, taskId: Option<string>, cfg: RunnerConfig,
                                 shown: string -> Result<Attr>, outcome: Result<()>): Attempt {
    var s := RunnerSession(issueId, taskId, cfg);
    Outcome(issueId, cfg.makeSessionId(issueId), cfg.orchestratorId, ClaimRejection(s),
            Prepared(shown(issueId), cfg), outcome)
  }

  /** The attempt by cases on the claim snapshot's validation. */
  lemma ClaimAndRunCases(issueId: string, taskId: Option<string>, cfg: RunnerConfig,
                  shown: string -> Result<Attr>, outcome: Result<()>)
    ensures var rej := ClaimRejection(RunnerSession(issueId, taskId, cfg));
      var x := ClaimAndRunSpec(issueId, taskId, cfg, shown, outcome);
      var c := Continued(issueId, cfg.makeSessionId(issueId), cfg.orchestratorId, Prepared(shown(issueId), cfg), outcome);
      (rej.Some? ==> x == Attempt(Err(rej.value), [SetStatus(issueId, IN_PROGRESS)], []))
      && (rej.None? ==> x == Attempt(c.result, [SetStatus(issueId, IN_PROGRESS), Feedback(issueId, StartEvent())] + c.writes, c.runs))
  {
  }

  /** The claim comes first: every attempt starts by moving the issue to `in_progress`,
      and nothing else moves it there. */
  lemma ClaimComesFirst(issueId: string, sessionId: string, orchestratorId: string, rejected: Option<string>,
                        prepared: Result<(IssueContext, string)>, outcome: Result<()>)
    ensures var x := Outcome(issueId, sessionId, orchestratorId, rejected, prepared, outcome);
      x.writes != [] && x.writes[0] == SetStatus(issueId, IN_PROGRESS)
      && forall i :: 0 < i < |x.writes| ==> x.writes[i] != SetStatus(issueId, IN_PROGRESS)
  {
  }

  /** A claim whose snapshot is rejected fails with the rejection and writes nothing
      after the status. A failure after a successful claim hands the issue back: the
      last write moves it to `open`, and a failure to load or render is first reported
      as an error snapshot carrying the error's text. A successful attempt never reopens
      the issue and runs exactly one session, under the claim's session id. */
  lemma FailureReopens(issueId: string, sessionId: string, orchestratorId: string, rejected: Option<string>,
                       prepared: Result<(IssueContext, string)>, outcome: Result<()>)
    ensures var x := Outcome(issueId, sessionId, orchestratorId, rejected, prepared, outcome);
      var n := |x.writes|;
      (rejected.Some? ==> x.result == Err(rejected.value) && n == 1 && x.runs == [])
      && (rejected.None? && x.result.Err? ==>
            n >= 3 && x.writes[n - 1] == SetStatus(issueId, OPEN)
            && (prepared.Err? ==> x.result.error == prepared.error && x.runs == []
                                  && x.writes[n - 2] == Feedback(issueId, RunnerErrorEvent(prepared.error))))
      && (x.result.Ok? ==> (forall i :: 0 <= i < n ==> x.writes[i] != SetStatus(issueId, OPEN))
                           && x.runs == [Run(prepared.value.0, prepared.value.1, sessionId, orchestratorId)])
  {
  }

  /** `IssueSessionRunner`; the claim and error snapshots are validated against the
      corrected enumerations, which agree with the ones as written on both events. */
  class IssueSessionRunner {
    const gateway: Gateway
    const orchestrator: SessionOrchestrator
    const cfg: RunnerConfig

    constructor (gateway: Gateway, orchestrator: SessionOrchestrator, cfg: RunnerConfig)
      ensures this.gateway == gateway && this.orchestrator == orchestrator && this.cfg == cfg
    {
      this.gateway := gateway;
      this.orchestrator := orchestrator;
      this.cfg := cfg;
    }

    /** `_load_issue` and `render_issue_prompt`. */
    method Prepare(issueId: string) returns (r: Result<(IssueContext, string)>)
      ensures r == Prepared(gateway.shown(issueId), cfg)
    {
      var shown := gateway.ShowIssue(issueId);
      var issue := LoadIssue(shown);
      if issue.Err? {
        return Err(issue.error);
      }
      var rendered := PromptRenderer.RenderIssuePrompt(cfg.template, issue.value, cfg.keyOrder);
      if rendered.Err? {
        return Err(rendered.error);
      }
      r := Ok((issue.value, rendered.value));
    }

    /** `claim_and_run_issue` */
    method ClaimAndRunIssue(issueId: string, taskId: Option<string>) returns (r: Result<()>)
      modifies gateway`writes, orchestrator`runs
      ensures var x := ClaimAndRunSpec(issueId, taskId, cfg, gateway.shown, orchestrator.outcome);
        r == x.result && gateway.writes == old(gateway.writes) + x.writes
        && orchestrator.runs == old(orchestrator.runs) + x.runs
    {
      ClaimAndRunCases(issueId, taskId, cfg, gateway.shown, orchestrator.outcome);
      var task := ResolvedTask(issueId, taskId);
      assert RunnerSession(issueId, taskId, cfg)
          == ClaimSession(issueId, task, cfg.orchestratorId, cfg.makeSessionId(issueId), cfg.now, cfg.parses);
      var claim := ClaimIssue(issueId, task, cfg.orchestratorId, gateway, CORRECTED, cfg.makeSessionId, cfg.now, cfg.parses);
      if claim.Err? {
        return Err(claim.error);
      }
      ghost var claimed := gateway.writes;
      r := RunClaimed(issueId, task, claim.value.sessionId);
      assert gateway.writes == old(gateway.writes) + [SetStatus(issueId, IN_PROGRESS), Feedback(issueId, StartEvent())]
                               + (gateway.writes[|claimed|..]);
    }

    /** The part of `claim_and_run_issue` after the claim. */
    method RunClaimed(issueId: string, task: string, sessionId: string) returns (r: Result<()>)
      requires EventOk(ClaimSession(issueId, task, cfg.orchestratorId, sessionId, cfg.now, cfg.parses), StartEvent(), CORRECTED)
      modifies gateway`writes, orchestrator`runs
      ensures var c := Continued(issueId, sessionId, cfg.orchestratorId, Prepared(gateway.shown(issueId), cfg), orchestrator.outcome);
        r == c.result && gateway.writes == old(gateway.writes) + c.writes
        && orchestrator.runs == old(orchestrator.runs) + c.runs
    {
      var prepared := Prepare(issueId);
      if prepared.Err? {
        var s := ClaimSession(issueId, task, cfg.orchestratorId, sessionId, cfg.now, cfg.parses);
        EmitRunnerErrorSnapshot(gateway, s, prepared.error);
        gateway.SetIssueStatus(issueId, OPEN);
        return Err(prepared.error);
      }
      r := orchestrator.RunIssue(prepared.value.0, prepared.value.1, sessionId, cfg.orchestratorId);
      if r.Err? {
        gateway.SetIssueStatus(issueId, OPEN);
      }
    }

    /** `poll_ready_and_run_once`: runs the first candidate in sort order, if any, and
        reports its issue id. */
    method PollReadyAndRunOnce() returns (r: Result<Option<string>>)
      modifies gateway`writes, gateway`readyQueries, orchestrator`runs
      ensures gateway.readyQueries == old(gateway.readyQueries) + 1
      ensures var cs := ReadyCandidates(gateway.ready);
        (cs.Err? ==> r == Err(cs.error) && gateway.writes == old(gateway.writes) && orchestrator.runs == old(orchestrator.runs))
        && (cs.Ok? && cs.value == [] ==>
              r == Ok(None) && gateway.writes == old(gateway.writes) && orchestrator.runs == old(orchestrator.runs))
        && (cs.Ok? && cs.value != [] ==>
              var first := cs.value[0];
              var x := ClaimAndRunSpec(first.issueId, Some(first.taskId), cfg, gateway.shown, orchestrator.outcome);
              r == (if x.result.Ok? then Ok(Some(first.issueId)) else Err(x.result.error))
              && gateway.writes == old(gateway.writes) + x.writes && orchestrator.runs == old(orchestrator.runs) + x.runs)
    {
      var ready := gateway.GetReadyIssues();
      if ready.Err? {
        return Err(ready.error);
      }
      var cs := SortedCandidates(ready.value);
      if cs.Err? {
        return Err(cs.error);
      }
      if cs.value == [] {
        return Ok(None);
      }
      var first := cs.value[0];
      var ran := ClaimAndRunIssue(first.issueId, Some(first.taskId));
      if ran.Err? {
        return Err(ran.error);
      }
      r := Ok(Some(first.issueId));
    }
  }

  /** The runner picks a candidate no other sorts before. */
  lemma RunnerPicksLeast(ready: seq<Attr>)
    ensures var cs := SortedCandidates(ready);
      cs.Ok? && cs.value != [] ==>
        Candidates(ready).Ok? && cs.value[0] in Candidates(ready).value
        && forall c :: c in Candidates(ready).value ==> !KeyLess(c, cs.value[0])
  {
    if Candidates(ready).Ok? && Candidates(ready).value != [] {
      FirstIsLeast(Candidates(ready).value);
    }
  }
}

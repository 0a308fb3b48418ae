/** The incident graph's detect node: from the incident state it reports, in a
    fixed order, a pipeline failure, a new critical data-quality exception, a
    critical data-quality anomaly and a cutoff delay, and nothing at all for a
    fingerprint already seen. */
module Detect {
  import opened Common

  /** The incident state, a dictionary of loosely typed values. */
  type State = map<string, Json>

  const CRITICAL_DQ_TAGS: set<string> := {"SOURCE_STALE", "EVENT_DROP_SUSPECTED"}
  const UNHASHABLE := "unhashable type"

  /** The issue kinds in the order `run` reports them. */
  const KIND_ORDER: seq<string> := ["failure", "new_exception", "critical_dq", "cutoff_delay"]

  /** The monitoring configuration: a pipeline's cutoff delay in minutes, `None` for
      a pipeline it does not list; and the pipeline timestamp reader, which reads a
      text as an instant in seconds or raises. */
  datatype Config = Config(cutoffMinutes: string -> Option<int>, parseTs: string -> Result<int>)

  /** `pipeline if isinstance(pipeline, str) else None` */
  function PipelineName(state: State): Option<string> {
    if Get(state, "pipeline").JStr? then Some(Get(state, "pipeline").s) else None
  }

  /** The pipeline's entry among the pipeline states; `None` when the pipeline states
      are not a dictionary. */
  function PipelineEntry(state: State, pipeline: string): Json {
    var states := Get(state, "pipeline_states");
    if states.JObj? then Get(states.fields, pipeline) else JNull
  }

  /** `_has_pipeline_failure` */
  predicate HasPipelineFailure(state: State, pipeline: Option<string>) {
    pipeline.Some?
    && var current := PipelineEntry(state, pipeline.value);
    current.JObj? && Get(current.fields, "status") == JStr("failure")
  }

  /** A ledger row that `_has_new_critical_exception` accepts: a dictionary for a
      critical data-quality exception whose `is_new` is not the literal False. */
  predicate IsNewCriticalRow(row: Json) {
    row.JObj?
    && Get(row.fields, "domain") == JStr("dq")
    && Get(row.fields, "severity") == JStr("CRITICAL")
    && !("is_new" in row.fields && row.fields["is_new"] == JBool(false))
  }

  /** What `_has_new_critical_exception` answers. */
  predicate NewCriticalException(state: State) {
    var ledger := Get(state, "exception_ledger");
    ledger.JList? && exists i :: 0 <= i < |ledger.items| && IsNewCriticalRow(ledger.items[i])
  }

  /** `_has_new_critical_exception`: the first accepted row ends the search. */
  method HasNewCriticalException(state: State) returns (found: bool)
    ensures found <==> NewCriticalException(state)
  {
    var ledger := Get(state, "exception_ledger");
    if !ledger.JList? {
      return false;
    }
    var rows := ledger.items;
    var i := 0;
    while i < |rows|
      invariant 0 <= i <= |rows|
      invariant forall k :: 0 <= k < i ==> !IsNewCriticalRow(rows[k])
    {
      var row := rows[i];
      if !row.JObj? {
        i := i + 1;
        continue;
      }
      if Get(row.fields, "domain") != JStr("dq") {
        i := i + 1;
        continue;
      }
      if Get(row.fields, "severity") != JStr("CRITICAL") {
        i := i + 1;
        continue;
      }
      if "is_new" in row.fields && row.fields["is_new"] == JBool(false) {
        i := i + 1;
        continue;
      }
      return true;
    }
    return false;
  }

  /** Python's set membership raises on a list or a dictionary. */
  predicate Unhashable(v: Json) {
    v.JList? || v.JObj?
  }

  /** A critical data-quality row, whose tag the anomaly search then looks up. */
  predicate IsCriticalDqRow(row: Json) {
    row.JObj? && Get(row.fields, "severity") == JStr("CRITICAL")
  }

  /** The anomaly search over `rows[i..]`: the first critical row whose tag is a
      critical tag answers true, one whose tag cannot be looked up raises, and the
      rest are skipped. */
  function DqScan(rows: seq<Json>, i: nat): Result<bool>
    requires i <= |rows|
    decreases |rows| - i
  {
    if i == |rows| then Ok(false)
    else if !IsCriticalDqRow(rows[i]) then DqScan(rows, i + 1)
    else
      var tag := Get(rows[i].fields, "dq_tag");
      if Unhashable(tag) then Err(UNHASHABLE)
      else if tag.JStr? && tag.s in CRITICAL_DQ_TAGS then Ok(true)
      else DqScan(rows, i + 1)
  }

  /** What `_has_critical_dq_anomaly` answers. */
  function CriticalDqAnomaly(state: State): Result<bool> {
    var rows := Get(state, "dq_status");
    if rows.JList? then DqScan(rows.items, 0) else Ok(false)
  }

  /** A critical row with a critical tag. */
  predicate IsAnomalyRow(row: Json) {
    IsCriticalDqRow(row) && Get(row.fields, "dq_tag").JStr? && Get(row.fields, "dq_tag").s in CRITICAL_DQ_TAGS
  }

  /** A critical row whose tag the lookup rejects. */
  predicate IsBadTagRow(row: Json) {
    IsCriticalDqRow(row) && Unhashable(Get(row.fields, "dq_tag"))
  }

  /** The search finds an anomaly exactly when some critical row carries a critical tag
      with no row before it whose tag cannot be looked up; it answers false exactly
      when there is neither kind of row; otherwise it raises. Warning rows never
      matter. */
  lemma {:induction false} DqScanMeans(rows: seq<Json>, i: nat)
    requires i <= |rows|
    ensures DqScan(rows, i) == Ok(true) <==>
      exists j :: i <= j < |rows| && IsAnomalyRow(rows[j]) && forall k :: i <= k < j ==> !IsBadTagRow(rows[k])
    ensures DqScan(rows, i) == Ok(false) <==>
      forall j :: i <= j < |rows| ==> !IsAnomalyRow(rows[j]) && !IsBadTagRow(rows[j])
    ensures DqScan(rows, i).Err? ==> DqScan(rows, i) == Err(UNHASHABLE)
    decreases |rows| - i
  {
    if i < |rows| {
      DqScanMeans(rows, i + 1);
      if IsBadTagRow(rows[i]) {
        assert !IsAnomalyRow(rows[i]);
        assert DqScan(rows, i) == Err(UNHASHABLE);
        forall j | i <= j < |rows| && IsAnomalyRow(rows[j])
          ensures exists k :: i <= k < j && IsBadTagRow(rows[k])
        {
          assert j != i;
        }
      } else if IsAnomalyRow(rows[i]) {
        assert DqScan(rows, i) == Ok(true);
      } else {
        assert DqScan(rows, i) == DqScan(rows, i + 1);
        if DqScan(rows, i) == Ok(true) {
          var j :| i + 1 <= j < |rows| && IsAnomalyRow(rows[j]) && forall k :: i + 1 <= k < j ==> !IsBadTagRow(rows[k]);
          assert forall k :: i <= k < j ==> !IsBadTagRow(rows[k]);
        }
        forall j | i <= j < |rows| && IsAnomalyRow(rows[j]) && (forall k :: i <= k < j ==> !IsBadTagRow(rows[k]))
          ensures DqScan(rows, i) == Ok(true)
        {
          assert j != i;
          assert forall k :: i + 1 <= k < j ==> !IsBadTagRow(rows[k]);
        }
      }
    }
  }

  /** `_has_critical_dq_anomaly` */
  method HasCriticalDqAnomaly(state: State) returns (r: Result<bool>)
    ensures r == CriticalDqAnomaly(state)
  {
    var dqRows := Get(state, "dq_status");
    if !dqRows.JList? {
      return Ok(false);
    }
    var rows := dqRows.items;
    var i := 0;
    while i < |rows|
      invariant 0 <= i <= |rows|
      invariant DqScan(rows, 0) == DqScan(rows, i)
    {
      var row := rows[i];
      if !row.JObj? {
        i := i + 1;
        continue;
      }
      if Get(row.fields, "severity") != JStr("CRITICAL") {
        i := i + 1;
        continue;
      }
      var tag := Get(row.fields, "dq_tag");
      if tag.JList? || tag.JObj? {
        return Err(UNHASHABLE);
      }
      if !(tag.JStr? && tag.s in CRITICAL_DQ_TAGS) {
        i := i + 1;
        continue;
      }
      return Ok(true);
    }
    return Ok(false);
  }

  /** `_is_cutoff_delay`: the detection instant lies strictly more than the pipeline's
      configured cutoff after its last success. A missing pipeline, entry, timestamp or
      configuration means no delay; an unreadable timestamp raises. */
  function CutoffDelay(state: State, pipeline: Option<string>, config: Config): Result<bool> {
    if pipeline.None? then Ok(false)
    else
      var current := PipelineEntry(state, pipeline.value);
      if !current.JObj? then Ok(false)
      else
        var detectedAt := Get(state, "detected_at");
        var lastSuccess := Get(current.fields, "last_success_ts");
        if !detectedAt.JStr? || !lastSuccess.JStr? then Ok(false)
        else if config.cutoffMinutes(pipeline.value).None? then Ok(false)
        else
          match config.parseTs(detectedAt.s)
          case Err(e) => Err(e)
          case Ok(detected) =>
            match config.parseTs(lastSuccess.s)
            case Err(e) => Err(e)
            case Ok(succeeded) => Ok(detected - succeeded > config.cutoffMinutes(pipeline.value).value * 60)
  }

  function Issue(kind: string, severity: string): Json {
    JObj(map["type" := JStr(kind), "severity" := JStr(severity)])
  }

  /** The node's update: the pipeline states, `{}` unless they are a dictionary, and
      the issues. */
  function Updates(state: State, issues: seq<Json>): State {
    var states := Get(state, "pipeline_states");
    map["pipeline_states" := if states.JObj? then states else JObj(map[]),
        "detected_issues" := JList(issues)]
  }

  /** The four issues `run` can report, in the order it reports them. */
  function AllIssues(): seq<Json> {
    [Issue("failure", "critical"), Issue("new_exception", "critical"),
     Issue("critical_dq", "critical"), Issue("cutoff_delay", "warning")]
  }

  /** `[x]` when `flag` is set, else nothing. */
  function Opt<T>(flag: bool, x: T): seq<T> {
    if flag then [x] else []
  }

  /** The elements of the four `all` whose flag is set, in order. */
  function Flag4<T>(all: seq<T>, a: bool, b: bool, c: bool, d: bool): seq<T>
    requires |all| == 4
  {
    Opt(a, all[0]) + Opt(b, all[1]) + Opt(c, all[2]) + Opt(d, all[3])
  }

  /** `run` as a value. */
  function Detected(state: State, config: Config): Result<State> {
    if Truthy(Get(state, "fingerprint_duplicate")) then Ok(Updates(state, []))
    else
      var pipeline := PipelineName(state);
      match CriticalDqAnomaly(state)
      case Err(e) => Err(e)
      case Ok(anomaly) =>
        match CutoffDelay(state, pipeline, config)
        case Err(e) => Err(e)
        case Ok(delay) =>
          Ok(Updates(state, Flag4(AllIssues(), HasPipelineFailure(state, pipeline), NewCriticalException(state), anomaly, delay)))
  }

  /** `run` */
  method Run(state: State, config: Config) returns (r: Result<State>)
    ensures r == Detected(state, config)
  {
    var pipeline := Get(state, "pipeline");
    if Truthy(Get(state, "fingerprint_duplicate")) {
      return Ok(Updates(state, []));
    }
    var name := if pipeline.JStr? then Some(pipeline.s) else None;
    var all := AllIssues();
    var failure := HasPipelineFailure(state, name);
    var issues := Opt(failure, all[0]);
    var exception := HasNewCriticalException(state);
    issues := AppendIf(issues, exception, all[1]);
    var anomaly := HasCriticalDqAnomaly(state);
    if anomaly.Err? {
      return Err(anomaly.error);
    }
    issues := AppendIf(issues, anomaly.value, all[2]);
    var delay := CutoffDelay(state, name, config);
    if delay.Err? {
      return Err(delay.error);
    }
    issues := AppendIf(issues, delay.value, all[3]);
    assert issues == Flag4(all, failure, exception, anomaly.value, delay.value);
    r := Ok(Updates(state, issues));
  }

  /** `if flag: issues.append(issue)` */
  method AppendIf(issues: seq<Json>, flag: bool, issue: Json) returns (r: seq<Json>)
    ensures r == issues + Opt(flag, issue)
  {
    r := issues;
    if flag {
      r := r + [issue];
    }
  }

  /** A fingerprint already seen yields no issues, whatever else the state holds. */
  lemma DuplicateYieldsNothing(state: State, config: Config)
    requires Truthy(Get(state, "fingerprint_duplicate"))
    ensures Detected(state, config).Ok?
    ensures Detected(state, config).value["detected_issues"] == JList([])
  {
  }

  /** The update always carries the pipeline states, replaced by `{}` when they are not
      a dictionary, and the issues as a list. */
  lemma PipelineStatesKept(state: State, config: Config)
    requires Detected(state, config).Ok?
    ensures var u := Detected(state, config).value;
      u.Keys == {"pipeline_states", "detected_issues"} && u["detected_issues"].JList?
      && u["pipeline_states"] == (if Get(state, "pipeline_states").JObj? then Get(state, "pipeline_states") else JObj(map[]))
  {
  }

  predicate Distinct<T(==)>(xs: seq<T>) {
    forall i, j :: 0 <= i < j < |xs| ==> xs[i] != xs[j]
  }

  /** Picking from four distinct elements keeps their order and takes each exactly
      when its flag is set. */
  lemma Flag4Means<T>(all: seq<T>, a: bool, b: bool, c: bool, d: bool)
    requires |all| == 4 && Distinct(all)
    ensures var s := Flag4(all, a, b, c, d);
      IsSubsequence(s, all)
      && (all[0] in s <==> a) && (all[1] in s <==> b) && (all[2] in s <==> c) && (all[3] in s <==> d)
  {
    var s1 := Opt(a, all[0]);
    assert IsSubsequence(s1, [all[0]]);
    SubsequenceSnoc(s1, [all[0]], all[1], b);
    var s2 := s1 + Opt(b, all[1]);
    SubsequenceSnoc(s2, [all[0]] + [all[1]], all[2], c);
    var s3 := s2 + Opt(c, all[2]);
    SubsequenceSnoc(s3, [all[0]] + [all[1]] + [all[2]], all[3], d);
    assert [all[0]] + [all[1]] + [all[2]] + [all[3]] == all;
  }

  lemma {:induction false} SubsequenceExtend<T>(xs: seq<T>, ys: seq<T>, y: T)
    requires IsSubsequence(xs, ys)
    ensures IsSubsequence(xs, ys + [y])
    decreases |ys|
  {
    if xs != [] {
      assert (ys + [y])[1..] == ys[1..] + [y];
      if xs[0] == ys[0] && IsSubsequence(xs[1..], ys[1..]) {
        SubsequenceExtend(xs[1..], ys[1..], y);
      } else {
        SubsequenceExtend(xs, ys[1..], y);
      }
    }
  }

  lemma {:induction false} SubsequenceBoth<T>(xs: seq<T>, ys: seq<T>, y: T)
    requires IsSubsequence(xs, ys)
    ensures IsSubsequence(xs + [y], ys + [y])
    decreases |ys|
  {
    if ys == [] {
      assert xs == [];
      assert ([y] + [])[1..] == [] && ([] + [y]) == [y];
    } else {
      assert (ys + [y])[1..] == ys[1..] + [y];
      if xs == [] {
        SubsequenceBoth(xs, ys[1..], y);
      } else if xs[0] == ys[0] && IsSubsequence(xs[1..], ys[1..]) {
        assert (xs + [y])[1..] == xs[1..] + [y];
        SubsequenceBoth(xs[1..], ys[1..], y);
      } else {
        SubsequenceBoth(xs, ys[1..], y);
      }
    }
  }

  lemma SubsequenceSnoc<T>(xs: seq<T>, ys: seq<T>, y: T, flag: bool)
    requires IsSubsequence(xs, ys)
    ensures IsSubsequence(xs + Opt(flag, y), ys + [y])
  {
    if flag {
      SubsequenceBoth(xs, ys, y);
    } else {
      assert xs + Opt(flag, y) == xs;
      SubsequenceExtend(xs, ys, y);
    }
  }

  lemma IssuesDistinct()
    ensures Distinct(AllIssues())
  {
    var all := AllIssues();
    assert forall m :: 0 <= m < 4 ==> all[m].fields["type"] == JStr(KIND_ORDER[m]);
  }

  /** Each kind of issue is reported at most once and only in the order failure,
      new exception, critical anomaly, cutoff delay, each exactly when its rule holds;
      only the cutoff delay is a warning. */
  lemma IssueOrder(state: State, config: Config)
    requires Detected(state, config).Ok? && !Truthy(Get(state, "fingerprint_duplicate"))
    ensures var issues := Detected(state, config).value["detected_issues"].items;
      IsSubsequence(issues, AllIssues())
      && (Issue("failure", "critical") in issues <==> HasPipelineFailure(state, PipelineName(state)))
      && (Issue("new_exception", "critical") in issues <==> NewCriticalException(state))
      && (Issue("critical_dq", "critical") in issues <==> CriticalDqAnomaly(state) == Ok(true))
      && (Issue("cutoff_delay", "warning") in issues <==> CutoffDelay(state, PipelineName(state), config) == Ok(true))
  {
    IssuesDistinct();
    Flag4Means(AllIssues(), HasPipelineFailure(state, PipelineName(state)), NewCriticalException(state),
               CriticalDqAnomaly(state).value, CutoffDelay(state, PipelineName(state), config).value);
  }
}

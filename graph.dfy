/** The incident graph: eleven nodes joined by fixed edges and by conditional edges
    whose branch a router picks from the state, and the fallback interpreter that
    runs the graph from `detect` for at most a hundred steps, merging each node's
    update into the state, until a route reaches the end. */
module IncidentGraph {
  import opened Common
  import DetectNode = Detect

  type State = DetectNode.State

  const START := "__start__"
  const END := "__end__"
  const MAX_STEPS: nat := 100
  const STEPS_EXCEEDED := "graph execution exceeded maximum steps"
  const NOT_ITERABLE := "object is not iterable"
  const NO_VALUES := "object has no attribute 'values'"
  const UNHASHABLE := "unhashable type"

  /** The graph's nodes. */
  datatype NodeId = Detect | Collect | Analyze | Triage | Propose | Interrupt
                  | Execute | Verify | Rollback | ReportOnly | Postmortem

  /** Where an edge leads: a node or the end. */
  datatype Target = To(node: NodeId) | End

  /** A node's name in the graph definition. */
  function Name(n: NodeId): string {
    match n
    case Detect => "detect"
    case Collect => "collect"
    case Analyze => "analyze"
    case Triage => "triage"
    case Propose => "propose"
    case Interrupt => "interrupt"
    case Execute => "execute"
    case Verify => "verify"
    case Rollback => "rollback"
    case ReportOnly => "report_only"
    case Postmortem => "postmortem"
  }

  function TargetName(t: Target): string {
    if t.End? then END else Name(t.node)
  }

  /** The nodes with a router. */
  predicate Routed(n: NodeId) {
    n in {Detect, Collect, Triage, Interrupt, Verify}
  }

  /** The fixed successor of a node without a router. */
  function Successor(n: NodeId): Target
    requires !Routed(n)
  {
    match n
    case Analyze => To(Triage)
    case Propose => To(Interrupt)
    case Execute => To(Verify)
    case _ => End
  }

  /** A routed node's branches: route key to target. */
  function Branches(n: NodeId): map<string, Target>
    requires Routed(n)
  {
    match n
    case Detect => map["end" := End, "report_only" := To(ReportOnly), "collect" := To(Collect)]
    case Collect => map["triage" := To(Triage), "analyze" := To(Analyze)]
    case Triage => map["report_only" := To(ReportOnly), "propose" := To(Propose)]
    case Interrupt => map["approve" := To(Execute), "reject" := To(ReportOnly), "modify" := To(Propose), "timeout" := End]
    case Verify => map["postmortem" := To(Postmortem), "rollback" := To(Rollback), "end" := End]
  }

  /** The fixed edges of the graph definition. */
  const EDGES: set<(string, string)> := {(START, "detect"), ("analyze", "triage"), ("propose", "interrupt"),
                                         ("execute", "verify"), ("report_only", END), ("rollback", END),
                                         ("postmortem", END)}

  /** The conditional edges of the graph definition. */
  const CONDITIONAL: map<string, map<string, string>> := map[
    "detect" := map["end" := END, "report_only" := "report_only", "collect" := "collect"],
    "collect" := map["triage" := "triage", "analyze" := "analyze"],
    "triage" := map["report_only" := "report_only", "propose" := "propose"],
    "interrupt" := map["approve" := "execute", "reject" := "report_only", "modify" := "propose", "timeout" := END],
    "verify" := map["postmortem" := "postmortem", "rollback" := "rollback", "end" := END]]

  /** A routed node's branches are its conditional edges, and it has no fixed edge. */
  lemma BranchesAreConditionalEdges(n: NodeId)
    requires Routed(n)
    ensures Name(n) in CONDITIONAL && forall t :: (Name(n), t) !in EDGES
    ensures forall k :: k in Branches(n) <==> k in CONDITIONAL[Name(n)]
    ensures forall k :: k in Branches(n) ==> CONDITIONAL[Name(n)][k] == TargetName(Branches(n)[k])
  {
  }

  /** Every other node's successor, like the start's, is its one fixed edge. */
  lemma SuccessorIsFixedEdge(n: NodeId)
    requires !Routed(n)
    ensures Name(n) !in CONDITIONAL
    ensures forall t :: (Name(n), t) in EDGES <==> t == TargetName(Successor(n))
    ensures forall t :: (START, t) in EDGES <==> t == Name(Detect)
  {
  }

  // ---------------------------------------------------------------------------
  // Routers

  /** `_issue_kind`: a dictionary's `type`, or its `kind` when the type is falsy, if
      that is a string; a string is its own kind; anything else has kind "". */
  function IssueKind(issue: Json): (k: string)
    ensures issue.JStr? ==> k == issue.s
    ensures !issue.JStr? && !issue.JObj? ==> k == ""
    ensures issue.JObj? && Truthy(Get(issue.fields, "type")) ==>
      k == (if Get(issue.fields, "type").JStr? then Get(issue.fields, "type").s else "")
    ensures issue.JObj? && !Truthy(Get(issue.fields, "type")) ==>
      k == (if Get(issue.fields, "kind").JStr? then Get(issue.fields, "kind").s else "")
  {
    match issue
    case JObj(fields) =>
      var value := if Truthy(Get(fields, "type")) then Get(fields, "type") else Get(fields, "kind");
      if value.JStr? then value.s else ""
    case JStr(s) => s
    case _ => ""
  }

  /** `all(_issue_kind(issue) == "cutoff_delay" for issue in issues)` over a list. */
  function AllCutoff(issues: seq<Json>): (b: bool)
    ensures b <==> forall i :: 0 <= i < |issues| ==> IssueKind(issues[i]) == "cutoff_delay"
  {
    if issues == [] then true
    else IssueKind(issues[0]) == "cutoff_delay" && AllCutoff(issues[1..])
  }

  /** `_route_detect`. The issues are iterated as Python iterates them: a list's
      items, a dictionary's keys, a string's characters; a number cannot be. */
  function RouteDetect(state: State): (r: Result<string>)
    ensures var issues := Get(state, "detected_issues");
      (r == Ok("end") <==> !Truthy(issues))
      && (r == Ok("report_only") <==>
            Truthy(issues)
            && ((issues.JList? && forall i :: 0 <= i < |issues.items| ==> IssueKind(issues.items[i]) == "cutoff_delay")
                || (issues.JObj? && issues.fields.Keys == {"cutoff_delay"})))
      && (r.Err? <==> Truthy(issues) && (issues.JInt? || issues.JBool?))
      && (r.Ok? ==> r.value in Branches(Detect))
  {
    var issues := Get(state, "detected_issues");
    if !Truthy(issues) then Ok("end")
    else
      match issues
      case JList(items) => if AllCutoff(items) then Ok("report_only") else Ok("collect")
      case JObj(fields) => if fields.Keys == {"cutoff_delay"} then Ok("report_only") else Ok("collect")
      // a one-character string is never "cutoff_delay"
      case JStr(_) => Ok("collect")
      case _ => Err(NOT_ITERABLE)
  }

  /** Whether some value of the pipeline states is a dictionary with status failure. */
  predicate AnyPipelineFailure(states: map<string, Json>) {
    exists p :: p in states && states[p].JObj? && Get(states[p].fields, "status") == JStr("failure")
  }

  /** `_route_collect`. Truthy pipeline states that are not a dictionary have no
      `values()`; the failure scan runs before the tags are looked at. */
  function RouteCollect(state: State): (r: Result<string>)
    ensures var states := Get(state, "pipeline_states");
      (r.Err? <==> Truthy(states) && !states.JObj?)
      && (r == Ok("triage") <==>
            (!Truthy(states) || states.JObj?)
            && Truthy(Get(state, "dq_tags"))
            && !(states.JObj? && AnyPipelineFailure(states.fields))
            && !Truthy(Get(state, "exceptions")))
      && (r.Ok? ==> r.value in Branches(Collect))
  {
    var states := Get(state, "pipeline_states");
    if Truthy(states) && !states.JObj? then Err(NO_VALUES)
    else
      var failure := states.JObj? && AnyPipelineFailure(states.fields);
      if Truthy(Get(state, "dq_tags")) && !failure && !Truthy(Get(state, "exceptions")) then Ok("triage")
      else Ok("analyze")
  }

  /** `_route_triage` */
  function RouteTriage(state: State): (r: string)
    ensures var plan := Get(state, "action_plan");
      (r == "report_only" <==> plan.JObj? && Get(plan.fields, "action") == JStr("skip_and_report"))
      && r in Branches(Triage)
  {
    var plan := Get(state, "action_plan");
    if plan.JObj? && Get(plan.fields, "action") == JStr("skip_and_report") then "report_only" else "propose"
  }

  const DECISIONS: set<string> := {"approve", "reject", "modify", "timeout"}

  /** `_route_interrupt`. A list or a dictionary cannot be looked up in a set. */
  function RouteInterrupt(state: State): (r: Result<string>)
    ensures var decision := Get(state, "human_decision");
      (r.Err? <==> decision.JList? || decision.JObj?)
      && (decision.JStr? && decision.s in DECISIONS ==> r == Ok(decision.s))
      && (r.Ok? && r.value != "timeout" ==> decision == JStr(r.value))
      && (r.Ok? ==> r.value in Branches(Interrupt))
  {
    var decision := Get(state, "human_decision");
    if decision.JList? || decision.JObj? then Err(UNHASHABLE)
    else if decision.JStr? && decision.s in DECISIONS then Ok(decision.s)
    else Ok("timeout")
  }

  /** `_route_verify`: resolved, then failed, then a truthy rollback request. */
  function RouteVerify(state: State): (r: string)
    ensures var status := Get(state, "final_status");
      (r == "postmortem" <==> status == JStr("resolved"))
      && (r == "rollback" <==> status != JStr("resolved") && status != JStr("failed") && Truthy(Get(state, "rollback_required")))
      && r in Branches(Verify)
  {
    var status := Get(state, "final_status");
    if status == JStr("resolved") then "postmortem"
    else if status == JStr("failed") then "end"
    else if Truthy(Get(state, "rollback_required")) then "rollback"
    else "end"
  }

  /** The router of a routed node. */
  function Route(n: NodeId, state: State): (r: Result<string>)
    requires Routed(n)
    ensures r.Ok? ==> r.value in Branches(n)
  {
    match n
    case Detect => RouteDetect(state)
    case Collect => RouteCollect(state)
    case Triage => Ok(RouteTriage(state))
    case Interrupt => RouteInterrupt(state)
    case Verify => Ok(RouteVerify(state))
  }

  // ---------------------------------------------------------------------------
  // The fallback interpreter

  /** The node table: each node's update of the state, or the error it raises. */
  type Nodes = (NodeId, State) -> Result<State>

  /** The node table of the graph definition: `detect` is the detect node and
      `interrupt` returns nothing; the other nodes are given as `others`. */
  function Definition(config: DetectNode.Config, others: Nodes): (nodes: Nodes)
    ensures forall s :: nodes(Detect, s) == DetectNode.Detected(s, config)
    ensures forall s :: nodes(Interrupt, s) == Ok(map[])
    ensures forall n, s :: n != Detect && n != Interrupt ==> nodes(n, s) == others(n, s)
  {
    (n: NodeId, s: State) =>
      match n
      case Detect => DetectNode.Detected(s, config)
      case Interrupt => Ok(map[])
      case _ => others(n, s)
  }

  /** `if updates: current_state.update(updates)` */
  function Merge(state: State, updates: State): (r: State)
    ensures r.Keys == state.Keys + updates.Keys
    ensures forall k :: k in r ==> r[k] == if k in updates then updates[k] else state[k]
  {
    if updates != map[] then state + updates else state
  }

  /** Where the run goes after `n`, read off the state its update produced. */
  function Next(n: NodeId, state: State): Result<Target> {
    if Routed(n) then
      match Route(n, state)
      case Err(e) => Err(e)
      case Ok(key) => Ok(Branches(n)[key])
    else Ok(Successor(n))
  }

  /** One step: the node's update merged into the state, and where the run goes next. */
  function Step(n: NodeId, state: State, nodes: Nodes): Result<(State, Target)> {
    match nodes(n, state)
    case Err(e) => Err(e)
    case Ok(updates) =>
      var current := Merge(state, updates);
      match Next(n, current)
      case Err(e) => Err(e)
      case Ok(target) => Ok((current, target))
  }

  /** The run from `n` with `fuel` steps left. */
  function RunFrom(n: NodeId, state: State, fuel: nat, nodes: Nodes): Result<State>
    decreases fuel
  {
    if fuel == 0 then Err(STEPS_EXCEEDED)
    else
      var s := Step(n, state, nodes);
      if s.Err? then Err(s.error)
      else if s.value.1 == End then Ok(s.value.0)
      else RunFrom(s.value.1.node, s.value.0, fuel - 1, nodes)
  }

  /** `_CompiledGraphShim.invoke`: the run starts at `detect`, the start's successor,
      and fails once it has taken the maximum number of steps. */
  method Invoke(state: State, nodes: Nodes) returns (r: Result<State>)
    ensures r == RunFrom(Detect, state, MAX_STEPS, nodes)
  {
    var next := Detect;
    var current := state;
    var fuel := MAX_STEPS;
    while fuel > 0
      invariant RunFrom(next, current, fuel, nodes) == RunFrom(Detect, state, MAX_STEPS, nodes)
    {
      fuel := fuel - 1;
      var stepped := RunNode(next, current, nodes);
      if stepped.Err? {
        return Err(stepped.error);
      }
      current := stepped.value.0;
      if stepped.value.1 == End {
        return Ok(current);
      }
      next := stepped.value.1.node;
    }
    return Err(STEPS_EXCEEDED);
  }

  /** The body of the interpreter's loop: run the node, merge a non-empty update,
      and follow the router's branch or the fixed edge. */
  method RunNode(n: NodeId, state: State, nodes: Nodes) returns (r: Result<(State, Target)>)
    ensures r == Step(n, state, nodes)
  {
    var updates := nodes(n, state);
    if updates.Err? {
      return Err(updates.error);
    }
    var current := state;
    if updates.value != map[] {
      current := current + updates.value;
    }
    if Routed(n) {
      var key := Route(n, current);
      if key.Err? {
        return Err(key.error);
      }
      return Ok((current, Branches(n)[key.value]));
    }
    return Ok((current, Successor(n)));
  }

  /** A run only adds keys to the state and overwrites values: every key it started
      with is still there. */
  lemma {:induction false} RunKeepsKeys(n: NodeId, state: State, fuel: nat, nodes: Nodes)
    ensures RunFrom(n, state, fuel, nodes).Ok? ==> state.Keys <= RunFrom(n, state, fuel, nodes).value.Keys
    decreases fuel
  {
    if fuel > 0 {
      var s := Step(n, state, nodes);
      if s.Ok? && s.value.1.To? {
        assert state.Keys <= s.value.0.Keys;
        RunKeepsKeys(s.value.1.node, s.value.0, fuel - 1, nodes);
      }
    }
  }

  /** When detect reports no issues, the run ends right after it, with detect's update
      merged into the state. */
  lemma NoIssuesEndsAtDetect(state: State, config: DetectNode.Config, others: Nodes)
    requires DetectNode.Detected(state, config).Ok?
    requires DetectNode.Detected(state, config).value["detected_issues"] == JList([])
    ensures RunFrom(Detect, state, MAX_STEPS, Definition(config, others))
         == Ok(Merge(state, DetectNode.Detected(state, config).value))
  {
    var u := DetectNode.Detected(state, config).value;
    assert Get(Merge(state, u), "detected_issues") == JList([]);
    assert Step(Detect, state, Definition(config, others)) == Ok((Merge(state, u), End));
  }

  /** A bare incident, with no pipeline states, ledger, data-quality rows or duplicate
      flag, ends after detect with no issues and empty pipeline states. */
  lemma BareIncidentEnds(state: State, config: DetectNode.Config, others: Nodes)
    requires "pipeline_states" !in state && "exception_ledger" !in state && "dq_status" !in state
    requires "fingerprint_duplicate" !in state
    ensures RunFrom(Detect, state, MAX_STEPS, Definition(config, others))
         == Ok(state + map["pipeline_states" := JObj(map[]), "detected_issues" := JList([])])
  {
    assert DetectNode.CriticalDqAnomaly(state) == Ok(false);
    assert DetectNode.CutoffDelay(state, DetectNode.PipelineName(state), config) == Ok(false);
    assert !DetectNode.NewCriticalException(state);
    assert !DetectNode.HasPipelineFailure(state, DetectNode.PipelineName(state));
    assert DetectNode.Flag4(DetectNode.AllIssues(), false, false, false, false) == [];
    assert DetectNode.Detected(state, config) == Ok(DetectNode.Updates(state, []));
    NoIssuesEndsAtDetect(state, config, others);
  }

  /** A proposal that always asks for a modification sends the run round the
      propose-interrupt cycle until the step bound is hit. */
  lemma {:induction false} ModifyCycleExhausts(n: NodeId, state: State, fuel: nat, nodes: Nodes)
    requires n == Propose || n == Interrupt
    requires forall s :: nodes(Propose, s) == Ok(map["human_decision" := JStr("modify")])
    requires forall s :: nodes(Interrupt, s) == Ok(map[])
    requires n == Interrupt ==> Get(state, "human_decision") == JStr("modify")
    ensures RunFrom(n, state, fuel, nodes) == Err(STEPS_EXCEEDED)
    decreases fuel
  {
    if fuel > 0 {
      if n == Propose {
        var current := Merge(state, map["human_decision" := JStr("modify")]);
        assert Get(current, "human_decision") == JStr("modify");
        assert Step(Propose, state, nodes) == Ok((current, To(Interrupt)));
        ModifyCycleExhausts(Interrupt, current, fuel - 1, nodes);
      } else {
        assert Merge(state, map[]) == state;
        assert Next(Interrupt, state) == Ok(To(Propose));
        assert Step(Interrupt, state, nodes) == Ok((state, To(Propose)));
        ModifyCycleExhausts(Propose, state, fuel - 1, nodes);
      }
    }
  }

  /** With the graph definition's nodes, a proposal that always asks for a
      modification makes the run fail at the step bound. */
  lemma ModifyForeverFails(state: State, config: DetectNode.Config, others: Nodes)
    requires forall s :: others(Propose, s) == Ok(map["human_decision" := JStr("modify")])
    ensures forall fuel: nat :: RunFrom(Propose, state, fuel, Definition(config, others)) == Err(STEPS_EXCEEDED)
  {
    forall fuel: nat {
      ModifyCycleExhausts(Propose, state, fuel, Definition(config, others));
    }
  }
}

/** The agent runner: it runs the incident graph for an incident, on the incident's
    own checkpoint thread, and records the incident in a registry table keyed by
    incident id. A later write fills in only the metadata it knows and never moves a
    finished incident back to running or resumed. */
module AgentRunner {
  import opened Common

  type State = map<string, Json>

  const INCIDENT_ID_REQUIRED := "incident_id is required"

  /** The statuses the registry accepts. */
  const ALLOWED: set<string> := {"running", "resumed", "resolved", "failed", "escalated", "reported"}
  /** The statuses of a finished incident. */
  const TERMINAL: set<string> := {"resolved", "failed", "escalated", "reported"}
  /** The statuses of an incident being worked on. */
  const ACTIVE: set<string> := {"running", "resumed"}

  /** A row of `incident_registry`; `None` is SQL NULL. */
  datatype RegistryRow = RegistryRow(pipeline: Option<string>, detectedAt: Option<string>,
                                     fingerprint: Option<string>, status: string, updatedAt: string)

  /** `_require_incident_id`: a non-empty string `incident_id`. */
  function RequireIncidentId(state: State): (r: Result<string>)
    ensures r.Ok? <==> "incident_id" in state && state["incident_id"].JStr? && state["incident_id"].s != ""
    ensures r.Ok? ==> state["incident_id"] == JStr(r.value)
    ensures r.Err? ==> r.error == INCIDENT_ID_REQUIRED
  {
    var id := Get(state, "incident_id");
    if !id.JStr? || id.s == "" then Err(INCIDENT_ID_REQUIRED) else Ok(id.s)
  }

  /** `_status_value`: an allowed status string is kept, anything else is the default. */
  function StatusValue(value: Json, default: string): (r: string)
    ensures value.JStr? && value.s in ALLOWED ==> r == value.s
    ensures !(value.JStr? && value.s in ALLOWED) ==> r == default
  {
    if value.JStr? && value.s in ALLOWED then value.s else default
  }

  /** `_optional_text`: `None` stays NULL, a string is kept, anything else is
      rendered with `str`. */
  function OptionalText(value: Json, repr: Json -> string): (r: Option<string>)
    ensures r.None? <==> value.JNull?
    ensures value.JStr? ==> r == Some(value.s)
  {
    if value.JNull? then None else Some(PyStr(value, repr))
  }

  /** The row a write offers for `state`: its metadata, its status or the default,
      and the time of the write. */
  function Incoming(state: State, default: string, now: string, repr: Json -> string): RegistryRow {
    RegistryRow(OptionalText(Get(state, "pipeline"), repr), OptionalText(Get(state, "detected_at"), repr),
                OptionalText(Get(state, "fingerprint"), repr), StatusValue(Get(state, "final_status"), default), now)
  }

  /** `COALESCE(excluded.x, incident_registry.x)` */
  function Coalesce(incoming: Option<string>, stored: Option<string>): Option<string> {
    if incoming.Some? then incoming else stored
  }

  /** The `ON CONFLICT ... DO UPDATE` clause: known metadata replaces the stored
      metadata, the time is the new one, and the status is the incoming one except
      that a finished incident keeps its status against running or resumed. */
  function MergeRow(stored: RegistryRow, incoming: RegistryRow): (r: RegistryRow)
    ensures r.pipeline == (if incoming.pipeline.Some? then incoming.pipeline else stored.pipeline)
    ensures r.detectedAt == (if incoming.detectedAt.Some? then incoming.detectedAt else stored.detectedAt)
    ensures r.fingerprint == (if incoming.fingerprint.Some? then incoming.fingerprint else stored.fingerprint)
    ensures r.updatedAt == incoming.updatedAt
    ensures r.status == stored.status <== stored.status in TERMINAL && incoming.status in ACTIVE
    ensures r.status == incoming.status <== !(stored.status in TERMINAL && incoming.status in ACTIVE)
  {
    RegistryRow(Coalesce(incoming.pipeline, stored.pipeline), Coalesce(incoming.detectedAt, stored.detectedAt),
                Coalesce(incoming.fingerprint, stored.fingerprint),
                if stored.status in TERMINAL && incoming.status in ACTIVE then stored.status else incoming.status,
                incoming.updatedAt)
  }

  /** `INSERT ... ON CONFLICT(incident_id) DO UPDATE` */
  function Upsert(registry: map<string, RegistryRow>, id: string, incoming: RegistryRow): map<string, RegistryRow> {
    registry[id := if id in registry then MergeRow(registry[id], incoming) else incoming]
  }

  /** `_upsert_incident_registry` as a value: the registry after the write, or the
      error when the state has no incident id. */
  function Recorded(registry: map<string, RegistryRow>, state: State, default: string, now: string,
                    repr: Json -> string): Result<map<string, RegistryRow>>
  {
    match RequireIncidentId(state)
    case Err(e) => Err(e)
    case Ok(id) => Ok(Upsert(registry, id, Incoming(state, default, now, repr)))
  }

  /** The graph's result laid over the state sent to it, when it is a mapping, with
      the requested incident id on top. */
  function Merged(sent: State, result: Json, id: string): (m: State)
    ensures m.Keys == sent.Keys + (if result.JObj? then result.fields.Keys else {}) + {"incident_id"}
    ensures m["incident_id"] == JStr(id)
    ensures forall k :: k in m && k != "incident_id" ==>
      m[k] == if result.JObj? && k in result.fields then result.fields[k] else sent[k]
  {
    (if result.JObj? then sent + result.fields else sent)["incident_id" := JStr(id)]
  }

  /** The outcome of a call: the returned state, or the error raised, and the
      registry afterwards. */
  datatype Outcome = Outcome(result: Result<State>, registry: map<string, RegistryRow>)

  /** The outcome of a graph run whose result is `graphResult`: the merged state is
      recorded with the default status. */
  function AfterGraph(registry: map<string, RegistryRow>, sent: State, graphResult: Result<Json>, id: string,
                      default: string, now: string, repr: Json -> string): Outcome
  {
    if graphResult.Err? then Outcome(Err(graphResult.error), registry)
    else
      var merged := Merged(sent, graphResult.value, id);
      match Recorded(registry, merged, default, now, repr)
      case Err(e) => Outcome(Err(e), registry)
      case Ok(after) => Outcome(Ok(merged), after)
  }

  /** `invoke` as a value. The graph is called with the incident id as its thread. */
  function Invoked(registry: map<string, RegistryRow>, initial: State, graph: (string, State) -> Result<Json>,
                   now: string, repr: Json -> string): Outcome
  {
    match RequireIncidentId(initial)
    case Err(e) => Outcome(Err(e), registry)
    case Ok(id) => AfterGraph(registry, initial, graph(id, initial), id, "running", now, repr)
  }

  /** `resume` as a value; a missing payload is an empty state. */
  function Resumed(registry: map<string, RegistryRow>, id: string, payload: Option<State>,
                   graph: (string, State) -> Result<Json>, now: string, repr: Json -> string): Outcome
  {
    var sent := if payload.None? then map[] else payload.value;
    AfterGraph(registry, sent, graph(id, sent), id, "resumed", now, repr)
  }

  /** The runner and its registry table; the checkpointer is the graph's own. */
  class Runner {
    var registry: map<string, RegistryRow>

    /** Opening a runner over an existing registry keeps its rows. */
    constructor (registry: map<string, RegistryRow>)
      ensures this.registry == registry
    {
      this.registry := registry;
    }

    /** `_upsert_incident_registry` */
    method UpsertIncident(state: State, default: string, now: string, repr: Json -> string)
      returns (r: Result<string>)
      modifies this
      ensures r == RequireIncidentId(state)
      ensures var after := Recorded(old(registry), state, default, now, repr);
        registry == if after.Ok? then after.value else old(registry)
    {
      var id := RequireIncidentId(state);
      if id.Err? {
        return Err(id.error);
      }
      var incoming := Incoming(state, default, now, repr);
      if id.value in registry {
        registry := registry[id.value := MergeRow(registry[id.value], incoming)];
      } else {
        registry := registry[id.value := incoming];
      }
      r := id;
    }

    /** `invoke` */
    method Invoke(initial: State, graph: (string, State) -> Result<Json>, now: string, repr: Json -> string)
      returns (r: Result<State>)
      modifies this
      ensures Outcome(r, registry) == Invoked(old(registry), initial, graph, now, repr)
    {
      var id := RequireIncidentId(initial);
      if id.Err? {
        return Err(id.error);
      }
      var result := graph(id.value, initial);
      if result.Err? {
        return Err(result.error);
      }
      var merged := initial;
      if result.value.JObj? {
        merged := merged + result.value.fields;
      }
      merged := merged["incident_id" := JStr(id.value)];
      var recorded := UpsertIncident(merged, "running", now, repr);
      r := Ok(merged);
    }

    /** `resume` */
    method Resume(id: string, payload: Option<State>, graph: (string, State) -> Result<Json>, now: string,
                  repr: Json -> string)
      returns (r: Result<State>)
      modifies this
      ensures Outcome(r, registry) == Resumed(old(registry), id, payload, graph, now, repr)
    {
      var sent := if payload.None? then map[] else payload.value;
      var result := graph(id, sent);
      if result.Err? {
        return Err(result.error);
      }
      var merged := sent;
      if result.value.JObj? {
        merged := merged + result.value.fields;
      }
      merged := merged["incident_id" := JStr(id)];
      var recorded := UpsertIncident(merged, "resumed", now, repr);
      if recorded.Err? {
        return Err(recorded.error);
      }
      r := Ok(merged);
    }
  }

  // ---------------------------------------------------------------------------
  // Properties

  /** `invoke` needs a non-empty string incident id: without one it raises before the
      graph runs and writes nothing. With one, the result carries that id whatever
      the graph returned, and the write adds or updates that incident's row alone,
      with status running unless the result holds an allowed final status. */
  lemma InvokeMeans(registry: map<string, RegistryRow>, initial: State, graph: (string, State) -> Result<Json>,
                    now: string, repr: Json -> string)
    ensures var o := Invoked(registry, initial, graph, now, repr);
      (RequireIncidentId(initial).Err? ==> o == Outcome(Err(INCIDENT_ID_REQUIRED), registry))
      && (o.result.Ok? ==>
            var id := initial["incident_id"].s;
            o.result.value["incident_id"] == JStr(id)
            && o.registry.Keys == registry.Keys + {id}
            && (forall k :: k in registry && k != id ==> o.registry[k] == registry[k])
            && o.registry[id].updatedAt == now
            && (var offered := StatusValue(Get(o.result.value, "final_status"), "running");
                o.registry[id].status == (if id in registry && registry[id].status in TERMINAL && offered in ACTIVE
                                          then registry[id].status else offered)))
      && (o.result.Err? ==> o.registry == registry)
  {
  }

  /** `resume` returns the requested incident id too, and with the default resumed;
      an empty id fails only when the registry write is reached, after the graph
      has run, and then nothing is written. */
  lemma ResumeMeans(registry: map<string, RegistryRow>, id: string, payload: Option<State>,
                    graph: (string, State) -> Result<Json>, now: string, repr: Json -> string)
    ensures var o := Resumed(registry, id, payload, graph, now, repr);
      (o.result.Ok? ==>
         id != "" && o.result.value["incident_id"] == JStr(id)
         && o.registry.Keys == registry.Keys + {id}
         && (forall k :: k in registry && k != id ==> o.registry[k] == registry[k])
         && (var offered := StatusValue(Get(o.result.value, "final_status"), "resumed");
             o.registry[id].status == (if id in registry && registry[id].status in TERMINAL && offered in ACTIVE
                                       then registry[id].status else offered)))
      && (id == "" && graph(id, if payload.None? then map[] else payload.value).Ok? ==>
            o == Outcome(Err(INCIDENT_ID_REQUIRED), registry))
      && (o.result.Err? ==> o.registry == registry)
  {
    var sent := if payload.None? then map[] else payload.value;
    if graph(id, sent).Ok? {
      var merged := Merged(sent, graph(id, sent).value, id);
      assert RequireIncidentId(merged) == (if id == "" then Err(INCIDENT_ID_REQUIRED) else Ok(id));
    }
  }

  /** Every status the runner writes is an allowed one. */
  lemma WrittenStatusAllowed(registry: map<string, RegistryRow>, state: State, default: string, now: string,
                             repr: Json -> string)
    requires default in ACTIVE
    requires forall k :: k in registry ==> registry[k].status in ALLOWED
    ensures Recorded(registry, state, default, now, repr).Ok? ==>
      forall k :: k in Recorded(registry, state, default, now, repr).value ==>
        Recorded(registry, state, default, now, repr).value[k].status in ALLOWED
  {
  }

  /** A finished incident stays finished: whatever a later invoke or resume writes,
      its status is still a terminal one, and it is the stored one unless the new
      state names a terminal status of its own. */
  lemma {:induction false} FinishedStaysFinished(registry: map<string, RegistryRow>, id: string,
                                                 writes: seq<(State, string)>, now: string, repr: Json -> string)
    requires id in registry && registry[id].status in TERMINAL
    requires forall i :: 0 <= i < |writes| ==> writes[i].1 in ACTIVE
    ensures var after := RecordAll(registry, writes, now, repr);
      id in after && after[id].status in TERMINAL
      && ((forall i :: 0 <= i < |writes| ==> StatusValue(Get(writes[i].0, "final_status"), writes[i].1) !in TERMINAL)
          ==> after[id].status == registry[id].status)
    decreases |writes|
  {
    if writes != [] {
      var next := Recorded(registry, writes[0].0, writes[0].1, now, repr);
      var rest := if next.Ok? then next.value else registry;
      assert id in rest && rest[id].status in TERMINAL;
      assert (forall i :: 0 <= i < |writes| ==> StatusValue(Get(writes[i].0, "final_status"), writes[i].1) !in TERMINAL)
             ==> rest[id].status == registry[id].status;
      FinishedStaysFinished(rest, id, writes[1..], now, repr);
    }
  }

  /** A sequence of registry writes, each of a state with its default status; a write
      whose state has no incident id leaves the registry as it is. */
  function RecordAll(registry: map<string, RegistryRow>, writes: seq<(State, string)>, now: string,
                     repr: Json -> string): map<string, RegistryRow>
    decreases |writes|
  {
    if writes == [] then registry
    else
      var next := Recorded(registry, writes[0].0, writes[0].1, now, repr);
      RecordAll(if next.Ok? then next.value else registry, writes[1..], now, repr)
  }

  /** Writing the same state twice at the same time leaves the registry as writing it
      once. */
  lemma RecordTwiceIsOnce(registry: map<string, RegistryRow>, state: State, default: string, now: string,
                          repr: Json -> string)
    requires Recorded(registry, state, default, now, repr).Ok?
    ensures Recorded(Recorded(registry, state, default, now, repr).value, state, default, now, repr)
         == Recorded(registry, state, default, now, repr)
  {
    var id := RequireIncidentId(state).value;
    var incoming := Incoming(state, default, now, repr);
    var once := Upsert(registry, id, incoming);
    assert MergeRow(once[id], incoming) == once[id];
    assert Upsert(once, id, incoming) == once;
  }
}

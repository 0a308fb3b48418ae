# NSC-pipeline-ops-agent: a Dafny model of its core

The repository runs two kinds of automation around a data-pipeline team.

The **sudocode orchestrator** picks ready issues from the sudocode tracker and runs them. It does this through a worker pool (`runner`), one review session per issue (`session_loop`, `claim`, `prompt_renderer`), and a validated JSON snapshot stream (`snapshot`). It also closes issues whose pull request merged. The **merge-close daemon** does that closing. It polls GitHub for merged pull requests (`GhCliPoller`), removes duplicates through a crash-safe checkpoint keyed by a replay identity, holds a single-instance pid lock, and drives the close state machine (`merge_closer`). The state machine moves an issue from `needs_review` to `closed` at most once, writes an audit note, and cascades to fix-child parents. `close_on_merge_runtime` turns merge events into close payloads. A health check grades the daemon's heartbeat.

The **pipeline-incident agent** detects incidents on monitored pipelines (`detect`). It routes an incident through a small state graph (`graph`) and runs that graph with a SQLite incident registry (`agent_runner`). It calls an LLM with retries and a daily budget (`llm_client`), polls pipelines on a schedule (`watchdog`), resolves secrets (`secrets`), validates action plans (`action_plan`), and loads runtime settings (`utils/config`). Two scripts and a tool complete the set: the opencode dispatcher (claim an issue, run `opencode`, then move the issue to review or back to open), the daemon health check, and the bad-records summarizer.

Each core source file is one Dafny module, in a file of the same name. `common.dfy` holds what they share:

- `Option` and `Result`;
- a `Json` value type for Python's dicts and lists;
- Python's `str.strip`, ASCII-only `lower` and `upper`, `in` on strings, `int()` on decimal text and `str()` of an int;
- lexicographic string order.

Stateful objects are classes whose fields the methods update:

- the tracker gateway and its write log;
- the daemon with its checkpoint, heartbeat and lock file;
- the worker pool;
- the agent runner and its registry;
- the LLM budget store;
- the dispatcher's shell.

Loops are `while`/`for` loops proved against a specification function. The outside world is a parameter:

- clocks, ISO-8601 parsing and formatting;
- `json.loads`/`json.dumps`;
- subprocesses and the GitHub API;
- the tracker backend;
- the graph's node functions.

## Model

| member | source | states |
|---|---|---|
| ActionPlan.Schema | src/orchestrator/action_plan.py:6-20 | each action's parameter names are listed without repetition, in the schema's order |
| ActionPlan.SchemaKeys | src/orchestrator/action_plan.py:6-20 | the key set of an action's schema is exactly the names in its parameter list |
| ActionPlan.TypeError | src/orchestrator/action_plan.py:44-49 | a value draws a complaint exactly when it is not a str |
| ActionPlan.TypeErrorsEmptyIff | src/orchestrator/action_plan.py:43-53 | the type check complains about nothing exactly when every schema value is a str |
| ActionPlan.CollectTypeErrors | src/orchestrator/action_plan.py:43-49 | the loop collects one complaint per schema key whose value is not a str, in schema order |
| ActionPlan.MatchMonth | src/orchestrator/action_plan.py:63 | the month field of strptime takes one or two characters and yields a month from 1 to 12 |
| ActionPlan.MatchDay | src/orchestrator/action_plan.py:63 | the day field of strptime takes one or two characters and yields a day from 1 to 31 |
| ActionPlan.Strptime | src/orchestrator/action_plan.py:62-65 | a date strptime accepts for the year-month-day format is a date that exists |
| ActionPlan.YearText | src/orchestrator/action_plan.py:66 | strftime prints a year from 1000 on as exactly four digits and, as the C library on Linux does for CPython releases before gh-120713, an earlier year without a leading zero |
| ActionPlan.FormattedDateAccepted | src/orchestrator/action_plan.py:59-68 | every existing date from year 1000 on, printed zero-padded, passes the date_kst check and parses back to itself |
| ActionPlan.AcceptedDateIsZeroPadded | src/orchestrator/action_plan.py:59-68 | a date_kst that passes is a zero-padded YYYY-MM-DD rendering of an existing date |
| ActionPlan.ZeroPaddedAccepted | src/orchestrator/action_plan.py:59-68 | conversely, every zero-padded rendering of an existing date passes |
| ActionPlan.PlanAcceptedIff | src/orchestrator/action_plan.py:23-56 | a plan is accepted exactly when the action is known, its keys are the schema's, all values are strings and a backfill's date is a zero-padded existing date |
| ActionPlan.MissingReportedFirst | src/orchestrator/action_plan.py:29-41 | a plan both missing and adding parameters is reported as missing |
| ActionPlan.ValidateActionPlan | src/orchestrator/action_plan.py:23-56 | the validator's outcome, including each error message, is that of the plan specification |
| AgentRunner.RequireIncidentId | runtime/agent_runner.py:116-120 | a state is accepted exactly when its incident_id is a non-empty str, which is returned; otherwise the error is "incident_id is required" |
| AgentRunner.StatusValue | runtime/agent_runner.py:185-188 | an allowed status string is kept and anything else becomes the default |
| AgentRunner.OptionalText | runtime/agent_runner.py:179-182 | None stays NULL, a str is kept as it is, and any other value is stored as its text |
| AgentRunner.MergeRow | runtime/agent_runner.py:155-165 | the upsert keeps the stored pipeline, detected_at and fingerprint where the new value is NULL, keeps a terminal status against running or resumed, and stamps the new time |
| AgentRunner.Merged | runtime/agent_runner.py:90-95 | the merged state holds the sent keys, the result's keys when it is a mapping, and the requested incident id, the result winning over the sent state |
| AgentRunner.Runner.constructor | runtime/agent_runner.py:29-80 | opening a runner keeps the registry's existing rows |
| AgentRunner.Runner.UpsertIncident | runtime/agent_runner.py:137-176 | the method reports the incident-id check and on success leaves the registry as the row specification says, untouched otherwise |
| AgentRunner.Runner.Invoke | runtime/agent_runner.py:88-97 | the returned state and the new registry are those of the invoke specification |
| AgentRunner.Runner.Resume | runtime/agent_runner.py:99-111 | the returned state and the new registry are those of the resume specification |
| AgentRunner.InvokeMeans | runtime/agent_runner.py:88-97 | a state without an incident id fails before the graph runs and writes nothing; otherwise the id's row is written with status running unless the result holds an allowed final status, and no other row changes |
| AgentRunner.ResumeMeans | runtime/agent_runner.py:99-111 | resume runs the graph first; an empty id then fails with nothing written, and otherwise only the id's row is written, defaulting to resumed |
| AgentRunner.WrittenStatusAllowed | runtime/agent_runner.py:159-172 | every status the registry holds after a write is an allowed one |
| AgentRunner.FinishedStaysFinished | runtime/agent_runner.py:159-164 | once an incident is terminal, later running or resumed writes leave it at its terminal status |
| AgentRunner.RecordTwiceIsOnce | runtime/agent_runner.py:137-176 | writing the same state twice at the same instant leaves the registry as one write does |
| BadRecords.Abbreviate | tools/bad_records_summarizer.py:128-136 | the result is never longer than the limit (a negative limit counts as zero), a text that fits is kept, and a longer one keeps its head and ends in three dots when the limit exceeds three |
| BadRecords.FieldText | tools/bad_records_summarizer.py:104-107 | the field is the parsed non-blank str field, or "unknown" |
| BadRecords.FirstReason | tools/bad_records_summarizer.py:109-116 | the reason found among detail, rule and reason is never blank |
| BadRecords.ExtractFieldAndReason | tools/bad_records_summarizer.py:87-121 | the extraction loop returns the field and reason of the extraction specification |
| BadRecords.Take | tools/bad_records_summarizer.py:47-55 | at most the first n samples are kept, in order |
| BadRecords.PyPrefix | tools/bad_records_summarizer.py:61 | Python's sorted_keys[:n] keeps the first n, and a negative n counts from the end |
| BadRecords.SamplesForCount | tools/bad_records_summarizer.py:38-55 | a violation has one sample per record carrying it |
| BadRecords.GroupMeans | tools/bad_records_summarizer.py:38-55 | the grouping loop counts each violation's records exactly and keeps the first max_samples of their samples, listing each violation once |
| BadRecords.CountStep | tools/bad_records_summarizer.py:44-55 | one record raises its violation's count by one and appends its sample only below the cap |
| BadRecords.BeforeIrreflexive | tools/bad_records_summarizer.py:57-60 | the sort key (count descending, then table, field, reason) never puts a violation before itself |
| BadRecords.BeforeAsymmetric | tools/bad_records_summarizer.py:57-60 | the sort key never orders two violations both ways |
| BadRecords.BeforeTransitive | tools/bad_records_summarizer.py:57-60 | the sort key order is transitive |
| BadRecords.BeforeTotal | tools/bad_records_summarizer.py:57-60 | two distinct violations are always ordered by the sort key, so the order does not depend on insertion |
| BadRecords.NotBeforeTransitive | tools/bad_records_summarizer.py:57-60 | not sorting before is transitive as well |
| BadRecords.InsertMeans | tools/bad_records_summarizer.py:57-60 | inserting into a sorted list keeps it sorted and adds exactly the new element |
| BadRecords.SortKeysMeans | tools/bad_records_summarizer.py:57-60 | sorting orders the violations by the sort key and is a permutation |
| BadRecords.SortedDistinct | tools/bad_records_summarizer.py:57-60 | sorting distinct violations yields them in strict order, each exactly once |
| BadRecords.SelectionOrder | tools/bad_records_summarizer.py:57-61 | the selected prefix is in strict order and no violation left out sorts before a selected one |
| BadRecords.SelectionMembers | tools/bad_records_summarizer.py:61 | every selected violation is one of the grouped ones |
| BadRecords.GroupedOrder | tools/bad_records_summarizer.py:33-55 | the grouping lists each violation of the records exactly once |
| BadRecords.GroupedCounts | tools/bad_records_summarizer.py:44-55 | a violation some record has is grouped with its positive count and the first max_samples of its samples |
| BadRecords.Summarize | tools/bad_records_summarizer.py:25-31 | no records give the empty summary |
| BadRecords.SummaryCounts | tools/bad_records_summarizer.py:79-84 | the summary counts every record, reports no more types than a non-negative limit and flags truncation exactly when more violations existed |
| BadRecords.SummaryOrder | tools/bad_records_summarizer.py:57-77 | the reported types come strictly in sort key order and none left out sorts before a reported one |
| BadRecords.SummarySamples | tools/bad_records_summarizer.py:63-77 | each reported type carries its abbreviated names, its count and its first samples, flagged truncated exactly when samples were dropped |
| BadRecords.SummarizeBadRecords | tools/bad_records_summarizer.py:15-84 | the method computes the summary specification |
| BadRecords.GroupRecords | tools/bad_records_summarizer.py:33-55 | the grouping loop computes the grouping specification |
| BadRecords.AddOne | tools/bad_records_summarizer.py:39-55 | one pass of the loop adds one record to the grouping |
| BadRecords.BuildTypes | tools/bad_records_summarizer.py:63-77 | the reporting loop builds one entry per selected violation, as the specification says |
| Claim.ClaimRejection | src/sudocode_orchestrator/snapshot.py:95-197 | the claim snapshot is rejected exactly when its session id is blank or the clock's text is not a UTC timestamp, the session id being checked first |
| Claim.ClaimRejectionExact | src/sudocode_orchestrator/claim.py:38-54 | validating the claim snapshot reports exactly that reason, under the published and the corrected enumerations alike |
| Claim.ClaimIssue | src/sudocode_orchestrator/claim.py:25-56 | with the runner's emitter (`_emit_claim_snapshot`, runner.py:265-269, which validates through `emit_snapshot_json` and then adds feedback) as the `emit_snapshot` callable: the issue is set to in_progress first and then one start snapshot is emitted; the claim succeeds exactly when that snapshot validates, returning the issue and factory-made session id, and a failing snapshot leaves the status write in place |
| Claim.ClaimSnapshotShape | src/sudocode_orchestrator/claim.py:38-54 | the start snapshot carries the schema version, the returned session id, the RUNNING/START event with zero attempts, empty lists and no verification, and the issue and task ids |
| Claim.StartEventOk | src/sudocode_orchestrator/claim.py:38-54 | the start snapshot validates exactly when the session id is not blank and the timestamp is UTC, under either enumeration |
| CloseOnMerge.SpaceRunEnd | src/sudocode_orchestrator/close_on_merge_runtime.py:9 | a greedy whitespace run of the issue-line pattern stops at the first non-space |
| CloseOnMerge.IdRunEnd | src/sudocode_orchestrator/close_on_merge_runtime.py:9 | the greedy id run stops at the first character outside lower-case letters and digits |
| CloseOnMerge.LastNewline | src/sudocode_orchestrator/close_on_merge_runtime.py:9 | a line feed found inside a whitespace run, where the multiline end anchor may match, lies inside the range |
| CloseOnMerge.LastNewlineIsLast | src/sudocode_orchestrator/close_on_merge_runtime.py:9 | the line feed found is the last one in the range, and none is found only when there is none |
| CloseOnMerge.LineEnd | src/sudocode_orchestrator/close_on_merge_runtime.py:9 | the trailing whitespace and end anchor end the match at the end of the text or at a line feed, after whitespace only |
| CloseOnMerge.LineEndFound | src/sudocode_orchestrator/close_on_merge_runtime.py:9 | whitespace up to the end of the text or of the line always lets the end anchor match |
| CloseOnMerge.MatchAt | src/sudocode_orchestrator/close_on_merge_runtime.py:9 | a match at a position consumes text and captures a canonical i- id |
| CloseOnMerge.MatchAtSound | src/sudocode_orchestrator/close_on_merge_runtime.py:9 | every match found is a line of the form the pattern describes |
| CloseOnMerge.MatchAtComplete | src/sudocode_orchestrator/close_on_merge_runtime.py:9 | every line of that form is matched, capturing that line's id |
| CloseOnMerge.FindAll | src/sudocode_orchestrator/close_on_merge_runtime.py:23 | findall scans left to right and returns only canonical ids |
| CloseOnMerge.ExtractIssueId | src/sudocode_orchestrator/close_on_merge_runtime.py:22-28 | one match gives its id, none raises the missing-line error and more than one raises the multiple-lines error |
| CloseOnMerge.CanonicalLineMatch | src/sudocode_orchestrator/close_on_merge_runtime.py:9 | a line "Sudocode-Issue: <id>" at a line start, ending the text or followed by a non-blank line, matches with that id |
| CloseOnMerge.CanonicalLineExtracts | src/sudocode_orchestrator/close_on_merge_runtime.py:22-28 | a body that is just the canonical line yields its id |
| CloseOnMerge.TwoLinesAreMultiple | src/sudocode_orchestrator/close_on_merge_runtime.py:22-28 | two canonical lines in a row make the body ambiguous |
| CloseOnMerge.NoFieldLineSkips | src/sudocode_orchestrator/close_on_merge_runtime.py:23 | positions where no line starts with the field name contribute no match |
| CloseOnMerge.OneFieldLineExtracts | src/sudocode_orchestrator/close_on_merge_runtime.py:22-28 | a body with a single line carrying the field, in canonical form, yields that line's id whatever text surrounds it |
| CloseOnMerge.TwoMatchesFound | src/sudocode_orchestrator/close_on_merge_runtime.py:23 | a match ending at a line feed and a match over the next line are both found, in order |
| CloseOnMerge.UppercaseIdIsMissing | src/sudocode_orchestrator/close_on_merge_runtime.py:9 | an id written in capitals is not canonical, so a single such line counts as missing |
| CloseOnMerge.NoLineStartNoMatch | src/sudocode_orchestrator/close_on_merge_runtime.py:9 | past the start of a text without line feeds nothing matches |
| CloseOnMerge.AsMapping | src/sudocode_orchestrator/close_on_merge_runtime.py:133-136 | a value passes exactly when it is a mapping, and otherwise the error names the field |
| CloseOnMerge.RequiredStr | src/sudocode_orchestrator/close_on_merge_runtime.py:139-143 | a field passes exactly when it is a non-blank str, returned unstripped, and otherwise the error names the field |
| CloseOnMerge.BuildPayloadIff | src/sudocode_orchestrator/close_on_merge_runtime.py:31-56 | a payload is built exactly from a valid event, and it is merged, carries the given source, the event's own strings and the body's one issue id |
| CloseOnMerge.MergedMustBeTrue | src/sudocode_orchestrator/close_on_merge_runtime.py:37-39 | merged must be the boolean true itself, so 1 or "true" are rejected |
| CloseOnMerge.BuildOperatorPayload | src/sudocode_orchestrator/close_on_merge_runtime.py:59-74 | an operator payload is always merged and carries the given source |
| CloseOnMerge.OperatorPayloadStrips | src/sudocode_orchestrator/close_on_merge_runtime.py:59-74 | the operator's strings are used without surrounding whitespace, and a string without any is used as given |
| CloseOnMerge.DispatchMergeClose | src/sudocode_orchestrator/close_on_merge_runtime.py:96-108 | the closer runs once, its writes are appended to the tracker's log and applied to its issues, and its result is reported as invoked; an error of the closer escapes, and the tracker invariant (at most one close per issue, which then stays closed) is kept |
| CloseOnMerge.DispatchFromEvent | src/sudocode_orchestrator/close_on_merge_runtime.py:77-93 | an event that builds no payload is reported with the error and leaves the tracker untouched; otherwise it is dispatched as above |
| CloseOnMerge.PreviewFromEvent | src/sudocode_orchestrator/close_on_merge_runtime.py:111-130 | a preview never invokes and carries the payload exactly when one can be built |
| Detect.HasNewCriticalException | graph/nodes/detect.py:28-42 | the ledger search answers true exactly when some ledger row is a dq row of CRITICAL severity not marked false for is_new |
| Detect.DqScanMeans | graph/nodes/detect.py:45-57 | the anomaly search answers true exactly when a critical row carries a critical tag with no unhashable tag before it, false exactly when there is neither, and raises otherwise |
| Detect.HasCriticalDqAnomaly | graph/nodes/detect.py:45-57 | the anomaly loop answers as the search specification says, raising on an unhashable tag |
| Detect.Run | graph/nodes/detect.py:85-122 | the detect node's update or error is that of the node specification |
| Detect.AppendIf | graph/nodes/detect.py:102-114 | an issue is appended exactly when its flag is set |
| Detect.DuplicateYieldsNothing | graph/nodes/detect.py:93-98 | a duplicate fingerprint yields no issues, whatever else the state holds |
| Detect.PipelineStatesKept | graph/nodes/detect.py:89-98 | the update carries exactly the pipeline states, replaced by an empty dict unless they are one, and the issue list |
| Detect.Flag4Means | graph/nodes/detect.py:100-114 | picking from four distinct issues keeps their order and takes each exactly when its flag is set |
| Detect.IssueOrder | graph/nodes/detect.py:100-122 | each kind of issue is reported at most once, in the order failure, new exception, critical anomaly, cutoff delay, each exactly when its rule holds, and only the cutoff delay is a warning |
| Dispatcher.NormalizeCommandShape | scripts/sudocode_opencode_dispatcher.py:31-35 | the normalised command has no whitespace at either end and is a slice of the input with only whitespace and at most one slash before it and only whitespace after it |
| Dispatcher.FinalStatusForSuccess | scripts/sudocode_opencode_dispatcher.py:38-39 | the final status is needs_review exactly for a successful run and open otherwise |
| Dispatcher.ContainsAcross | scripts/sudocode_opencode_dispatcher.py:191-199 | a marker without a line feed occurs in two texts joined by a line feed exactly when it occurs in one of them |
| Dispatcher.ClassifySuccessMeans | scripts/sudocode_opencode_dispatcher.py:191-199 | a run succeeded exactly when it exited 0, printed something non-blank, and neither stripped output contains a failure marker |
| Dispatcher.OrText | scripts/sudocode_opencode_dispatcher.py:384-385 | a falsy value gives the default, and a non-empty str is kept |
| Dispatcher.Updated | scripts/sudocode_opencode_dispatcher.py:125-147 | the primary write comes first; the fallback write follows exactly when the primary failed and a different fallback was given; the outcome is the primary status when it was written, the fallback when only that was written, and an error otherwise |
| Dispatcher.PickReadyIssue | scripts/sudocode_opencode_dispatcher.py:110-118 | no ready issues is reported as such, an issue is picked exactly when the first ready entry is a dict with a truthy id, and the pick is that id's text |
| Dispatcher.BuildMessage | scripts/sudocode_opencode_dispatcher.py:150-161 | an override is used as given; otherwise the message starts with the issue's id line and ends with its content |
| Dispatcher.OpencodeArgs | scripts/sudocode_opencode_dispatcher.py:164-188 | an empty re-normalised command is refused; otherwise opencode runs the normalised command in default format, with the agent and model options when given and the message last |
| Dispatcher.ExitCode | scripts/sudocode_opencode_dispatcher.py:328-464 | the exit code is 0 or 1, and 0 exactly for a dry run preview or a successful run |
| Dispatcher.LookedUp | scripts/sudocode_opencode_dispatcher.py:377-382 | the binary checks and lookups write nothing, and a found issue was last shown by its id |
| Dispatcher.EmptyCommandExitsFirst | scripts/sudocode_opencode_dispatcher.py:332-338 | an empty normalised command exits 1 before any call, and any other command first looks for the sudocode binary |
| Dispatcher.WritesNeedValidStatus | scripts/sudocode_opencode_dispatcher.py:377-416 | nothing is written unless the issue was found, it is not a dry run and its status is open or in_progress |
| Dispatcher.GateRejectsOtherStatus | scripts/sudocode_opencode_dispatcher.py:346-409 | a status outside open and in_progress fails the run with exit 1 before anything is written, and the failure artifacts record the initial selected status open, not the issue's own |
| Dispatcher.FinishWrites | scripts/sudocode_opencode_dispatcher.py:417-433 | after the claim, opencode runs first and only final statuses are written after it |
| Dispatcher.ClaimOnlyFromOpen | scripts/sudocode_opencode_dispatcher.py:409-416 | past the gate, in_progress is written exactly when the issue is open, and then as the first call |
| Dispatcher.OpencodeRunsOnClaimedIssue | scripts/sudocode_opencode_dispatcher.py:405-423 | opencode runs only outside a dry run, on an issue already in_progress or right after its in_progress write succeeded |
| Dispatcher.FinalStatusMeans | scripts/sudocode_opencode_dispatcher.py:426-453 | a successful run ends needs_review, or open only when the needs_review write failed; a failed run ends open with exit 1 |
| Dispatcher.Shell.constructor | scripts/sudocode_opencode_dispatcher.py:328-330 | a shell starts with no calls made |
| Dispatcher.Shell.Which | scripts/sudocode_opencode_dispatcher.py:263-277 | a binary check answers whether the binary is on the path and is recorded |
| Dispatcher.Shell.Ready | scripts/sudocode_opencode_dispatcher.py:70-87 | the ready query returns the tracker's answer and is recorded |
| Dispatcher.Shell.Show | scripts/sudocode_opencode_dispatcher.py:121-122 | the show query returns the issue or its error and is recorded |
| Dispatcher.Shell.SetStatus | scripts/sudocode_opencode_dispatcher.py:125-147 | one status write returns the command's result and is recorded |
| Dispatcher.Shell.RunOpencode | scripts/sudocode_opencode_dispatcher.py:164-188 | the opencode run returns the command's result and is recorded |
| Dispatcher.Shell.UpdateIssueStatus | scripts/sudocode_opencode_dispatcher.py:125-147 | the status update makes exactly the writes of the update specification and returns its outcome |
| Dispatcher.Shell.LookUp | scripts/sudocode_opencode_dispatcher.py:377-385 | the lookups make exactly the calls of the lookup specification and return its issue id and issue |
| Dispatcher.Shell.Execute | scripts/sudocode_opencode_dispatcher.py:386-416 | after the lookups, the run follows the execution specification, calls included |
| Dispatcher.Shell.Complete | scripts/sudocode_opencode_dispatcher.py:417-453 | the opencode run and final write follow the finishing specification, calls included |
| Dispatcher.Shell.Dispatch | scripts/sudocode_opencode_dispatcher.py:328-464 | the whole run returns the exit code and ending of the dispatch specification and makes exactly its calls, in order |
| McpGateway.ReadCallFor | src/sudocode_orchestrator/gateway.py:52-85 | every call the gateway makes is read back by the tracker as the request it was made for: show by its one positional id, a status write by issue id and status, feedback addressed to its own issue, a create without issue id (so never taken for a status write) and a link with both ids and the relation |
| McpGateway.CallForRead | src/sudocode_orchestrator/gateway.py:52-85 | conversely, a call the tracker reads as a request is exactly the call the gateway makes for it, so distinct requests never share a call |
| McpGateway.RetryMeans | src/sudocode_orchestrator/gateway.py:122-134 | at most three calls are made and every call but the last failed transiently; a value or a permanent failure ends the retries at once, and a third transient failure is re-raised |
| McpGateway.Backoff | src/sudocode_orchestrator/gateway.py:125-133 | one sleep follows each failed attempt that is retried |
| McpGateway.BackoffSchedule | src/sudocode_orchestrator/gateway.py:27-28 | the sleeps are 1.0 s and then 2.0 s |
| McpGateway.CoercedIssuesMeans | src/sudocode_orchestrator/gateway.py:112-120 | a ready list is accepted exactly when every item is a mapping, and then each is copied in order |
| McpGateway.CoerceIssueList | src/sudocode_orchestrator/gateway.py:112-120 | the coercion loop computes the coercion specification |
| McpGateway.ReadyIssuesMeans | src/sudocode_orchestrator/gateway.py:100-110 | a "ready.issues" list wins over a top-level "issues" list, and with neither the answer is rejected for its shape |
| McpGateway.ExtractReadyIssues | src/sudocode_orchestrator/gateway.py:100-110 | the extraction computes the ready-list specification |
| McpGateway.ExtractIssueId | src/sudocode_orchestrator/gateway.py:87-98 | a created issue's id is returned exactly when the answer is a mapping whose issue_id is a non-blank str, and unchanged |
| McpGateway.SudocodeGateway.constructor | src/sudocode_orchestrator/gateway.py:31-46 | a gateway starts with no calls made and no sleeps |
| McpGateway.SudocodeGateway.CallWithRetry | src/sudocode_orchestrator/gateway.py:122-134 | the loop makes the calls of the retry specification, returns its outcome, and sleeps the doubling backoff before each repetition |
| McpGateway.SudocodeGateway.GetReadyIssues | src/sudocode_orchestrator/gateway.py:48-50 | the ready call is retried as specified and its answer then goes through the ready-list extraction |
| McpGateway.SudocodeGateway.ShowIssue | src/sudocode_orchestrator/gateway.py:52-53 | the show call is retried as specified and its answer returned as it is |
| McpGateway.SudocodeGateway.SetIssueStatus | src/sudocode_orchestrator/gateway.py:55-60 | the status upsert is retried as specified and its answer is dropped |
| McpGateway.SudocodeGateway.AddFeedback | src/sudocode_orchestrator/gateway.py:62-68 | the feedback call is retried as specified and its answer is dropped |
| McpGateway.SudocodeGateway.CreateFixIssue | src/sudocode_orchestrator/gateway.py:70-77 | the create call is retried as specified and its answer must carry the new issue's id |
| McpGateway.SudocodeGateway.LinkIssues | src/sudocode_orchestrator/gateway.py:79-85 | the link call is retried as specified and its answer is dropped |
| GhCliPoller.SplitRepoSlug | src/sudocode_orchestrator/merge_close_daemon.py:551-555 | a slug is split at its first slash into a non-empty owner and name that join back to it, and otherwise refused |
| GhCliPoller.SplitRepoSlugJoin | src/sudocode_orchestrator/merge_close_daemon.py:551-555 | an owner without a slash and a name, joined by a slash, split back into themselves |
| GhCliPoller.NodeRecord | src/sudocode_orchestrator/merge_close_daemon.py:121-159 | a node is kept exactly when it is a mapping with a parseable non-blank mergedAt no earlier than since, an int number (a bool counts) and non-blank url and merge oid |
| GhCliPoller.KeptNodes | src/sudocode_orchestrator/merge_close_daemon.py:121-159 | a page keeps at most its nodes |
| GhCliPoller.KeptNodesMeans | src/sudocode_orchestrator/merge_close_daemon.py:121-159 | a page keeps exactly the nodes the node rule accepts |
| GhCliPoller.NextCursor | src/sudocode_orchestrator/merge_close_daemon.py:161-170 | paging goes on exactly while hasNextPage is the bool true and endCursor a non-empty str, which becomes the next cursor |
| GhCliPoller.ParsePage | src/sudocode_orchestrator/merge_close_daemon.py:103-119 | an empty page never asks for another |
| GhCliPoller.Paging | src/sudocode_orchestrator/merge_close_daemon.py:99-170 | the first request carries the starting cursor |
| GhCliPoller.PagingCursors | src/sudocode_orchestrator/merge_close_daemon.py:161-170 | every request after the first carries a non-empty cursor |
| GhCliPoller.KeyLeTotal | src/sudocode_orchestrator/merge_close_daemon.py:172-177 | any two records are ordered by the (mergedAt, number) sort key |
| GhCliPoller.KeyLeTransitive | src/sudocode_orchestrator/merge_close_daemon.py:172-177 | the sort key order is transitive |
| GhCliPoller.InsertSorted | src/sudocode_orchestrator/merge_close_daemon.py:172-177 | inserting into a sorted list keeps it sorted |
| GhCliPoller.InsertPermutes | src/sudocode_orchestrator/merge_close_daemon.py:172-177 | inserting adds exactly the new record |
| GhCliPoller.SortRecordsSpec | src/sudocode_orchestrator/merge_close_daemon.py:172-177 | the sorted records are ordered by the sort key and are a permutation of the input |
| GhCliPoller.ToRecords | src/sudocode_orchestrator/merge_close_daemon.py:151-159 | one record dict is built per kept node, in order |
| GhCliPoller.PollSpecMeans | src/sudocode_orchestrator/merge_close_daemon.py:94-178 | the poller returns exactly the kept nodes of all pages, sorted by (mergedAt, number), each merged at or after since with an int number and non-blank url and merge sha |
| GhCliPoller.PagingKeeps | src/sudocode_orchestrator/merge_close_daemon.py:121-159 | every record the pages yield satisfies the node rule |
| GhCliPoller.Poll | src/sudocode_orchestrator/merge_close_daemon.py:94-178 | the page loop and the sort return what the poll specification says and make the requests with the cursors it says |
| IncidentGraph.BranchesAreConditionalEdges | graph/graph.py:178-211 | a routed node's branches are exactly its conditional edges, and it has no fixed edge |
| IncidentGraph.SuccessorIsFixedEdge | graph/graph.py:43-47 | every other node's successor, like the start's, is its one fixed edge |
| IncidentGraph.IssueKind | graph/graph.py:92-99 | a string is its own kind; a dict's kind is its truthy type, else its kind, when that is a str; anything else has the empty kind |
| IncidentGraph.AllCutoff | graph/graph.py:102-110 | the all-cutoff check holds exactly when every issue's kind is cutoff_delay |
| IncidentGraph.RouteDetect | graph/graph.py:102-110 | no truthy issues route to end, only cutoff delays route to report_only, a number cannot be iterated and raises, and all else goes to collect |
| IncidentGraph.RouteCollect | graph/graph.py:113-126 | truthy pipeline states that are not a dict raise; the route is triage exactly when there are dq tags, no failed pipeline and no exceptions, and analyze otherwise |
| IncidentGraph.RouteTriage | graph/graph.py:129-133 | a skip_and_report plan routes to report_only and any other state to propose |
| IncidentGraph.RouteInterrupt | graph/graph.py:136-140 | a known decision routes to itself, a list or dict raises, and anything else times out |
| IncidentGraph.RouteVerify | graph/graph.py:143-150 | resolved routes to postmortem, failed to end, and otherwise a truthy rollback request to rollback |
| IncidentGraph.Route | graph/graph.py:61-63 | every branch a router picks has a conditional edge |
| IncidentGraph.Definition | graph/graph.py:153-218 | the node table runs detect's own update for detect and returns nothing for interrupt |
| IncidentGraph.Merge | graph/graph.py:57-59 | an update is laid over the state, the update's values winning |
| IncidentGraph.Invoke | graph/graph.py:49-70 | the run starts at detect and follows the run specification, failing after 100 steps without reaching the end |
| IncidentGraph.RunNode | graph/graph.py:57-67 | one step runs the node, merges a non-empty update and follows the router's branch or the fixed edge |
| IncidentGraph.RunKeepsKeys | graph/graph.py:54-68 | a run never drops a key the state started with |
| IncidentGraph.NoIssuesEndsAtDetect | graph/graph.py:102-110 | when detect reports no issues the run ends right after it, with detect's update merged |
| IncidentGraph.BareIncidentEnds | graph/graph.py:49-70 | a bare incident ends after detect with no issues and empty pipeline states |
| IncidentGraph.ModifyCycleExhausts | graph/graph.py:192-197 | a proposal that always asks for a modification goes round the propose-interrupt cycle until the step bound |
| IncidentGraph.ModifyForeverFails | graph/graph.py:49-70 | with the graph's own nodes such a proposal makes every run fail with the step-bound error |
| Healthcheck.Verdict | scripts/healthcheck_merge_close_daemon.py:97-130 | safe mode or a heartbeat older than the maximum age is unhealthy with exit 1, else a failure count that reached the budget (at least one) is degraded, else healthy; safe mode is reported before staleness |
| Healthcheck.CoerceInt | scripts/healthcheck_merge_close_daemon.py:37-40 | an int is kept, a bool counts as 0 or 1, and anything else is the default |
| Healthcheck.EvaluateMeans | scripts/healthcheck_merge_close_daemon.py:43-130 | a missing heartbeat is unhealthy; a heartbeat or state file that is not valid JSON raises its decode error, the state file only once the heartbeat has been read and its time parsed; one without a str updated_at and a bool poll_ok is invalid; the failure counter moves only on a new heartbeat, restarting at zero after a good poll and growing by one after a failed one, and is stored with that updated_at; the check fails exactly when unhealthy |
| Healthcheck.RecheckIsStable | scripts/healthcheck_merge_close_daemon.py:79-95 | checking the same heartbeat again against the state the first check left writes nothing and reports the same |
| Healthcheck.StateFile.constructor | scripts/healthcheck_merge_close_daemon.py:79-95 | the state file holds the given content |
| Healthcheck.EvaluateHealth | scripts/healthcheck_merge_close_daemon.py:43-130 | the check returns the evaluation's report and saves the failure state exactly when the evaluation says to |
| LlmClient.Classify | tools/llm_client.py:88-99 | the client's own errors pass through; an HTTP error is transient exactly for a retryable code and reports its status; timeouts, connection and URL errors are transient; everything else is permanent |
| LlmClient.ParseDailyCap | tools/llm_client.py:102-111 | a missing or blank cap is the default of 30, and otherwise the cap must parse as a positive integer, with one error for text and another for a non-positive number |
| LlmClient.Consumed | tools/llm_client.py:114-136 | a request is allowed exactly when the day has no row or its count is below the cap; the day's first request stores one and a later allowed one adds one, and a refused one changes nothing |
| LlmClient.DailyUsage.constructor | tools/llm_client.py:114-136 | the usage store holds the given day counts |
| LlmClient.DailyUsage.Consume | tools/llm_client.py:114-136 | the upsert answers and updates the counts as the budget specification says |
| LlmClient.Attempt | tools/llm_client.py:55-73 | a raised exception is classified, a non-2xx status fails with that status's error, without a parser the response is returned, and a parser's type or value error is a permanent parse failure |
| LlmClient.InvokeLlm | tools/llm_client.py:35-85 | the call's result, sleeps and request count and the new usage counts are those of the invoke specification |
| LlmClient.RunAttempts | tools/llm_client.py:54-85 | the retry loop's result, sleeps and calls are those of the attempts specification |
| LlmClient.CapReachedMakesNoCall | tools/llm_client.py:49-52 | a spent budget fails with the daily-cap error before any request or sleep and leaves the counts as they were |
| LlmClient.BadCapTouchesNothing | tools/llm_client.py:44 | a cap that is not a positive integer fails before the budget is touched or any request made |
| LlmClient.AttemptsFromMeans | tools/llm_client.py:54-83 | the attempts make between one and the remaining number of calls with the next retry delays in order between them, every call but the last fails transiently, and a transient result comes only from the last attempt |
| LlmClient.AttemptBound | tools/llm_client.py:12-83 | a call past the budget makes at most four requests and sleeps 2, 4 and 8 seconds in that order, only after transient failures |
| LlmClient.PermanentStopsAtOnce | tools/llm_client.py:74-83 | a permanent failure is never retried but ends the call at that attempt |
| LlmClient.BudgetStaysWithinCap | tools/llm_client.py:126-134 | starting at or below the cap, any number of consumptions leaves the day's count at or below it |
| LlmClient.NewDayConsumes | tools/llm_client.py:126-136 | a new day starts with a fresh budget, whatever earlier days used |
| MergeCloseDaemon.SinceIsBeforeWatermark | src/sudocode_orchestrator/merge_close_daemon.py:541-544 | the fetch starts exactly the (non-negative) lookback before the watermark, so never after it |
| MergeCloseDaemon.SaveThenLoad | src/sudocode_orchestrator/merge_close_daemon.py:400-445 | a saved checkpoint with a canonical watermark loads back to the same processed entries and watermark without error |
| MergeCloseDaemon.SafeModeNotPersisted | src/sudocode_orchestrator/merge_close_daemon.py:400-445 | the saved safe-mode flag and reason are never read back, so a checkpoint saved in safe mode loads as one saved outside it |
| MergeCloseDaemon.LoadErrorIff | src/sudocode_orchestrator/merge_close_daemon.py:400-433 | loading fails exactly when the document is not an object, its schema version is not 1, processed is not an object, or the window's watermark is not a non-blank string the clock parses |
| MergeCloseDaemon.HeartbeatFor | src/sudocode_orchestrator/merge_close_daemon.py:447-461 | the heartbeat carries the safe-mode state, the time and poll_ok, and an operator action exactly in safe mode |
| MergeCloseDaemon.Delays | src/sudocode_orchestrator/merge_close_daemon.py:383-398 | one sleep follows each failed fetch that is retried |
| MergeCloseDaemon.DelayIs | src/sudocode_orchestrator/merge_close_daemon.py:383-398 | the i-th sleep is the backoff doubled i times |
| MergeCloseDaemon.FetchFromMeans | src/sudocode_orchestrator/merge_close_daemon.py:383-398 | the fetch is retried only after failures, at most the configured number of attempts, returns the first success with its retry count, and reports failure only after the last attempt failed |
| MergeCloseDaemon.ApplyMergeCloseKeepsAtMostOnce | src/sudocode_orchestrator/merge_closer.py:34-119 | the merge closer never closes an issue a second time and never reopens a closed one |
| MergeCloseDaemon.StepFacts | src/sudocode_orchestrator/merge_close_daemon.py:313-368 | one record step only adds processed entries, calls the closer only for an unprocessed key, records exactly the accepted calls, counts the record once and advances the max-seen time |
| MergeCloseDaemon.CycleProcessedGrows | src/sudocode_orchestrator/merge_close_daemon.py:294-381 | processed only grows, and every entry present before the cycle is kept unchanged |
| MergeCloseDaemon.CycleDedupe | src/sudocode_orchestrator/merge_close_daemon.py:335-337 | the closer is never called for a key already processed when the cycle started |
| MergeCloseDaemon.CycleAddsAccepted | src/sudocode_orchestrator/merge_close_daemon.py:339-368 | a key is added to processed exactly when the closer was called for it and did not raise or answer the needs_review rejection |
| MergeCloseDaemon.CycleCounts | src/sudocode_orchestrator/merge_close_daemon.py:313-368 | on a cycle that ran to the end every fetched record was counted once, as dispatched or as skipped |
| MergeCloseDaemon.CycleKeepsAtMostOnce | src/sudocode_orchestrator/merge_close_daemon.py:294-381 | a cycle keeps every issue closed at most once, whatever had been processed and whichever tracker writes raise, so a cycle re-run after a lost checkpoint or a replay after a failed write is harmless |
| MergeCloseDaemon.FallibleApplyMergeCloseKeepsAtMostOnce | src/sudocode_orchestrator/merge_close_daemon.py:339-346 | a closer whose tracker writes may raise part-way (an outcome `CutShort` of `ApplySpec`) still never closes an issue twice |
| MergeCloseDaemon.CycleWatermark | src/sudocode_orchestrator/merge_close_daemon.py:310-370 | the watermark of a finished cycle is the maximum of the old one and every string mergedAt fetched, skipped records included: it is at least each of them and is the old watermark or one of the fetched times |
| MergeCloseDaemon.ReplaySkipsAccepted | src/sudocode_orchestrator/merge_close_daemon.py:335-368 | once a key was accepted, no later cycle calls the closer for it again, whatever records it is given |
| MergeCloseDaemon.AdvanceMaxBounds | src/sudocode_orchestrator/merge_close_daemon.py:314-318 | one advance never lowers the max-seen time, covers the record's own time, and is either the old max-seen time or the record's time |
| MergeCloseDaemon.FoldAfterError | src/sudocode_orchestrator/merge_close_daemon.py:313-368 | once an error escapes, the remaining records are not looked at |
| MergeCloseDaemon.FilterProcessed | src/sudocode_orchestrator/merge_close_daemon.py:420-425 | the loaded processed entries are exactly those whose value is an object |
| MergeCloseDaemon.Daemon.constructor | src/sudocode_orchestrator/merge_close_daemon.py:249-282 | the settings are clamped to at least one attempt and no negative backoff or lookback, the checkpoint is loaded, and outside safe mode it is saved straight back |
| MergeCloseDaemon.Daemon.LoadCheckpoint | src/sudocode_orchestrator/merge_close_daemon.py:400-433 | loading leaves the processed entries and watermark the load specification gives and enters safe mode, with its reason, exactly on a load error |
| MergeCloseDaemon.Daemon.SaveCheckpoint | src/sudocode_orchestrator/merge_close_daemon.py:435-445 | the checkpoint file then holds the current state |
| MergeCloseDaemon.Daemon.WriteHeartbeat | src/sudocode_orchestrator/merge_close_daemon.py:447-461 | the heartbeat file then holds the heartbeat for the current state |
| MergeCloseDaemon.Daemon.FetchWithRetry | src/sudocode_orchestrator/merge_close_daemon.py:383-398 | a watermark that does not parse fails before any fetch; otherwise the fetches and sleeps are those of the retry specification, all from the watermark less the lookback |
| MergeCloseDaemon.Daemon.ProcessRecord | src/sudocode_orchestrator/merge_close_daemon.py:313-368 | one pass of the record loop changes processed, the counters and the tracker as the record step says |
| MergeCloseDaemon.Daemon.ProcessPayload | src/sudocode_orchestrator/merge_close_daemon.py:320-368 | the part after the max-seen update follows the payload step |
| MergeCloseDaemon.Daemon.DispatchRecord | src/sudocode_orchestrator/merge_close_daemon.py:339-368 | a closer exception or the needs_review rejection counts as skipped and any other answer records the key and counts as dispatched |
| MergeCloseDaemon.Daemon.RunRecords | src/sudocode_orchestrator/merge_close_daemon.py:313-368 | the record loop computes the cycle specification and keeps the tracker invariant |
| MergeCloseDaemon.Daemon.PollOnce | src/sudocode_orchestrator/merge_close_daemon.py:294-381 | in safe mode nothing is fetched or saved; a failed fetch saves the unchanged state; a successful one runs the records, moves the watermark to the latest merge seen and saves; an error escaping the loop skips the save and the watermark; the heartbeat is written on every path and the tracker invariant is kept |
| MergeCloseDaemon.Daemon.PollLive | src/sudocode_orchestrator/merge_close_daemon.py:309-379 | outside safe mode the cycle fetches and then runs the records, as above |
| MergeCloseDaemon.Daemon.FinishCycle | src/sudocode_orchestrator/merge_close_daemon.py:310-379 | once the fetch returned, the records are run, then the watermark and checkpoint are written and the heartbeat follows |
| MergeCloseDaemon.Daemon.RunOnceWithLock | src/sudocode_orchestrator/merge_close_daemon.py:290-292 | a refused lock fails before anything else happens and changes nothing (lock, heartbeat, checkpoint, processed keys, watermark, fetch calls, sleeps and the tracker's issues and log all as before); otherwise the lock file is removed afterwards and the call returns, fetches, dispatches, saves and writes exactly what one `poll_once` cycle does (`PolledOnce`, the predicate `PollOnce` also ensures) |
| MergeCloseLock.AcquireSpec | src/sudocode_orchestrator/merge_close_daemon.py:53-70 | an acquire is refused exactly when the lock file exists and holds the pid of a live process, which the error names, leaving the file as it is; otherwise the file ends up holding this process's pid, a stale or unreadable lock being replaced |
| MergeCloseLock.PidLineReadsBack | src/sudocode_orchestrator/merge_close_daemon.py:504-514 | the pid line written reads back as that pid |
| MergeCloseLock.ExclusiveWhileAlive | src/sudocode_orchestrator/merge_close_daemon.py:53-70 | while the process that acquired the lock is alive, any other acquire is refused, naming it |
| MergeCloseLock.StaleLockTakenOver | src/sudocode_orchestrator/merge_close_daemon.py:517-524 | a lock left by a process that is gone is taken over by the next acquire |
| MergeCloseLock.LockPath.constructor | src/sudocode_orchestrator/merge_close_daemon.py:40-43 | the lock path holds the given file state |
| MergeCloseLock.FileLockGuard.constructor | src/sudocode_orchestrator/merge_close_daemon.py:41-43 | a new guard has not acquired the lock |
| MergeCloseLock.FileLockGuard.Acquire | src/sudocode_orchestrator/merge_close_daemon.py:53-70 | acquiring changes the lock file and answers as the acquire specification says, and marks the guard acquired on success |
| MergeCloseLock.FileLockGuard.Release | src/sudocode_orchestrator/merge_close_daemon.py:72-76 | releasing removes the file only if this guard acquired it, and leaves the guard not acquired |
| MergeCloseRecords.NetlocEnd | src/sudocode_orchestrator/merge_close_daemon.py:569-571 | urlparse's network location runs to the first slash, question mark or hash |
| MergeCloseRecords.SplitParams | src/sudocode_orchestrator/merge_close_daemon.py:569-571 | the path stops at the first semicolon of its last segment |
| MergeCloseRecords.UrlPath | src/sudocode_orchestrator/merge_close_daemon.py:569-571 | the only error urlparse raises here is the invalid IPv6 URL one |
| MergeCloseRecords.UrlPathHasNoHash | src/sudocode_orchestrator/merge_close_daemon.py:569-571 | the parsed path never holds the fragment separator |
| MergeCloseRecords.SegmentsFrom | src/sudocode_orchestrator/merge_close_daemon.py:571 | the path's parts are non-empty and hold no slash |
| MergeCloseRecords.RepoSlugShape | src/sudocode_orchestrator/merge_close_daemon.py:569-577 | the slug is the first two non-empty path segments joined by a slash, neither holding a slash or a hash |
| MergeCloseRecords.PyIntText | src/sudocode_orchestrator/merge_close_daemon.py:566 | an int's text holds no hash |
| MergeCloseRecords.ReplayIdentityKey | src/sudocode_orchestrator/merge_close_daemon.py:562-566 | a key exists exactly when the number is an int and the url has a repository slug, and a non-int number draws the number error first |
| MergeCloseRecords.ReplayKeyIdentifies | src/sudocode_orchestrator/merge_close_daemon.py:562-577 | equal replay keys come from the same repository slug, the same number text and the same merge commit |
| MergeCloseRecords.RecordEventPayload | src/sudocode_orchestrator/merge_close_daemon.py:464-490 | a record becomes an event exactly when it is well formed, and the event builds a payload exactly when the body has one issue line, carrying the record's url, commit and merge time as they are |
| MergeCloser.CoerceIssue | src/sudocode_orchestrator/merge_closer.py:165-170 | only a mapping is an issue: a nested `issue` mapping is unwrapped, any other mapping is taken as it is |
| MergeCloser.CoerceEntries | src/sudocode_orchestrator/merge_closer.py:180-199 | one coerced history entry per feedback item, in order |
| MergeCloser.ScanError | src/sudocode_orchestrator/merge_closer.py:212-229 | the timestamp scans raise exactly when some entry's `event_type` cannot be hashed |
| MergeCloser.GateStamps | src/sudocode_orchestrator/merge_closer.py:212-229 | one review-gate time per history entry, in order |
| MergeCloser.ReopenStamps | src/sudocode_orchestrator/merge_closer.py:232-247 | one reopen time per history entry, in order |
| MergeCloser.LatestIsMax | src/sudocode_orchestrator/merge_closer.py:212-247 | the latest marker is absent exactly when no entry carries a time, and otherwise is a present time no other exceeds |
| MergeCloser.LatestOrderFree | src/sudocode_orchestrator/merge_closer.py:212-247 | the latest marker depends on the times only, not on their order in the history |
| MergeCloser.InsertParents | src/sudocode_orchestrator/merge_closer.py:264-308 | adding one shape's parents keeps the list strictly sorted and holds exactly the old ids and the new linked parents |
| MergeCloser.ParentIds | src/sudocode_orchestrator/merge_closer.py:264-308 | the linked parent ids come back strictly sorted |
| MergeCloser.ParentIdsAreLinkedParents | src/sudocode_orchestrator/merge_closer.py:264-308 | the parent ids are exactly the linked parents of all three link shapes, sorted and each once |
| MergeCloser.AddParentsOfShape | src/sudocode_orchestrator/merge_closer.py:264-308 | the loop over one link shape adds exactly its parents to a sorted id list |
| MergeCloser.LinkedParentIssueIds | src/sudocode_orchestrator/merge_closer.py:264-308 | the loops that collect the parents return the sorted set of linked parents |
| MergeCloser.ShowSpec | src/sudocode_orchestrator/merge_closer.py:37-40 | an unknown id or a non-mapping issue raises, and otherwise the coerced issue comes back |
| MergeCloser.WithStatusShows | src/sudocode_orchestrator/merge_closer.py:92 | setting the status of a mapping changes only its status as later shows read it |
| MergeCloser.ClosedReadsClosed | src/sudocode_orchestrator/merge_closer.py:173-177 | an issue whose status was set to closed normalises to closed |
| MergeCloser.ApplyAllAppend | src/sudocode_orchestrator/merge_closer.py:34-119 | applying two runs of writes one after the other is applying their concatenation |
| MergeCloser.FeedbackKeepsIssues | src/sudocode_orchestrator/merge_closer.py:141-162 | in the model's tracker, feedback writes leave every issue as it was: a note is logged and does not join the history `show_issue` returns (listed under Left out) |
| MergeCloser.StepElsewhere | src/sudocode_orchestrator/merge_closer.py:92 | a write to another issue leaves this one as it was |
| MergeCloser.StepCloses | src/sudocode_orchestrator/merge_closer.py:92 | closing an existing mapping makes it read as closed |
| MergeCloser.ClosedStaysClosed | src/sudocode_orchestrator/merge_closer.py:42-64 | a closed issue stays closed under any run of writes that only close |
| MergeCloser.OneWriteKeepsAtMostOnce | src/sudocode_orchestrator/merge_closer.py:92 | one fresh write keeps the invariant that no issue has been closed twice |
| MergeCloser.ClosesFreshKeepsAtMostOnce | src/sudocode_orchestrator/merge_closer.py:92-113 | a run of fresh writes keeps the invariant that no issue has been closed twice |
| MergeCloser.Tracker.constructor | src/sudocode_orchestrator/merge_closer.py:34-36 | a tracker starts from the given issues with an empty write log |
| MergeCloser.Tracker.ShowIssue | src/sudocode_orchestrator/merge_closer.py:37-40 | a show answers as the show specification over the current issues |
| MergeCloser.Tracker.SetIssueStatus | src/sudocode_orchestrator/merge_closer.py:92 | a status write is logged and applied to the issue; it never raises (listed under Left out; a raising write is `CutShort`) |
| MergeCloser.Tracker.AddIssueFeedback | src/sudocode_orchestrator/merge_closer.py:141-162 | a feedback write is logged and leaves every issue as it was, so the note never joins the history `show_issue` returns; it never raises (both listed under Left out; a raising write is `CutShort`) |
| MergeCloser.ParentStep | src/sudocode_orchestrator/merge_closer.py:101-113 | one cascade step fails exactly when showing the parent fails |
| MergeCloser.AlreadyClosedSkips | src/sudocode_orchestrator/merge_closer.py:42-64 | an already closed issue gets no status write, only feedback on itself, and the skip result |
| MergeCloser.RejectionWritesOneNote | src/sudocode_orchestrator/merge_closer.py:130-138 | every rejection writes exactly one rejected note carrying the returned reason and no status |
| MergeCloser.RuleOrder | src/sudocode_orchestrator/merge_closer.py:42-82 | the rules are tried in order (closed, needs_review, merged, gate present, gate after reopen) and the first that fails gives the reason |
| MergeCloser.RulesPassIff | src/sudocode_orchestrator/merge_closer.py:66-82 | the rules pass exactly when the status is needs_review, the merge happened and some gate time is strictly later than every reopen time |
| MergeCloser.LatestGateAfterReopen | src/sudocode_orchestrator/merge_closer.py:74-82 | comparing the two latest times as the gate rule does is the same as some gate time beating every reopen time |
| MergeCloser.ApplySpecWrites | src/sudocode_orchestrator/merge_closer.py:34-119 | the writes of each branch: none when the show fails, the backfill and skip notes when closed, one note on a rejection, the close writes and the cascade when the rules pass |
| MergeCloser.ClosesIffRulesPass | src/sudocode_orchestrator/merge_closer.py:42-113 | the issue is closed by a call exactly when it was not closed and every rule passed, and the applied result is reported exactly then |
| MergeCloser.AppliesIff | src/sudocode_orchestrator/merge_closer.py:66-99 | a call reports the close applied exactly when the status is needs_review, the merge happened and a gate time beats every reopen time |
| MergeCloser.CascadeWritesParents | src/sudocode_orchestrator/merge_closer.py:101-113 | every cascade write belongs to a linked parent, status writes close it and each note is the parent-closed note naming the child |
| MergeCloser.CascadeClosesFresh | src/sudocode_orchestrator/merge_closer.py:101-113 | the cascade closes a parent only when it reads as needs_review when reached |
| MergeCloser.ParentStepFresh | src/sudocode_orchestrator/merge_closer.py:101-113 | the writes for one parent are fresh against the state they are made in |
| MergeCloser.ClosesFreshAppend | src/sudocode_orchestrator/merge_closer.py:92-113 | fresh runs stay fresh when concatenated |
| MergeCloser.ClosesFreshOnlyCloses | src/sudocode_orchestrator/merge_closer.py:92-113 | fresh writes only ever set the status to closed |
| MergeCloser.FeedbackClosesFresh | src/sudocode_orchestrator/merge_closer.py:141-162 | feedback writes are always fresh |
| MergeCloser.ApplyClosesFresh | src/sudocode_orchestrator/merge_closer.py:34-119 | every call closes only issues it finds open for closing, once each, and all its status writes close |
| MergeCloser.MainWritesFresh | src/sudocode_orchestrator/merge_closer.py:84-99 | the evidence note, the close and the applied note close an open issue once |
| MergeCloser.ApplyKeepsAtMostOnce | src/sudocode_orchestrator/merge_closer.py:34-119 | whatever the payload and the tracker, a call keeps the invariant that no issue is closed twice |
| MergeCloser.ReplayAfterApplyIsSkip | src/sudocode_orchestrator/merge_closer.py:42-64 | re-running a call that applied, with the same payload, reports the already-closed skip and writes no status; it does not promise that the skip note is the only write (listed under Left out) |
| MergeCloser.ReplayAfterApplyBackfills | src/sudocode_orchestrator/merge_closer.py:42-64 | in the model's tracker, whose notes never join the history, a replay after an applied close of a non-fix-child issue whose history lacked the applied marker writes a backfill MERGE_CLOSE_APPLIED note and then the skip note (listed under Left out) |
| MergeCloser.LatestMarkerTimestamp | src/sudocode_orchestrator/merge_closer.py:212-247 | the scan raises the unhashable-type error of the first bad entry, and otherwise returns the latest time of the markers it looks for |
| MergeCloser.ScanLatest | src/sudocode_orchestrator/merge_closer.py:212-247 | the scanning loop returns the first scan error or the latest present time |
| MergeCloser.ScanErrorAt | src/sudocode_orchestrator/merge_closer.py:212-229 | the first unhashable entry decides the scan error |
| MergeCloser.RejectionReason | src/sudocode_orchestrator/merge_closer.py:66-82 | the rule checks with their two scans give the reason of the first rule that fails, none when all pass, or the scan error |
| MergeCloser.CascadeExtend | src/sudocode_orchestrator/merge_closer.py:101-113 | one more parent extends the cascade over the prefix before it |
| MergeCloser.CascadeLoopStep | src/sudocode_orchestrator/merge_closer.py:101-113 | a parent whose show raises ends the whole cascade, any other extends the prefix |
| MergeCloser.CascadeStops | src/sudocode_orchestrator/merge_closer.py:101-113 | once a prefix of the cascade has failed, the whole cascade is that prefix |
| MergeCloser.CloseParent | src/sudocode_orchestrator/merge_closer.py:101-113 | one parent is shown and closed with its note only when it is in needs_review, or its show error is returned |
| MergeCloser.CloseParents | src/sudocode_orchestrator/merge_closer.py:101-113 | the parent loop logs and applies exactly the cascade writes and returns the cascade's error |
| MergeCloser.ApplySpecMissing | src/sudocode_orchestrator/merge_closer.py:37-40 | a failing show raises and writes nothing |
| MergeCloser.ApplySpecClosed | src/sudocode_orchestrator/merge_closer.py:42-64 | a closed issue gets the backfill and skip notes and the skip result |
| MergeCloser.ApplySpecRaises | src/sudocode_orchestrator/merge_closer.py:74-82 | a timestamp scan error raises after the status is read and writes nothing |
| MergeCloser.ApplySpecRejects | src/sudocode_orchestrator/merge_closer.py:66-82 | a failing rule writes its one rejection note and returns the rejection |
| MergeCloser.ApplySpecCloses | src/sudocode_orchestrator/merge_closer.py:84-119 | when the rules pass the close writes and then the cascade of a fix child are made, and the result is applied or the cascade's error |
| MergeCloser.ApplyMergeClose | src/sudocode_orchestrator/merge_closer.py:34-119 | the call logs and applies exactly the specified writes and returns the specified result, keeping the tracker invariant, against a tracker whose writes never raise (listed under Left out) |
| MergeCloser.CutShortKeepsAtMostOnce | src/sudocode_orchestrator/merge_closer.py:84-119 | when a tracker write raises part-way, the writes made before it still close no issue twice |
| MergeCloser.CloseCallStarts | src/sudocode_orchestrator/merge_closer.py:65-99 | a call that closes the issue found it in needs_review and starts with the evidence note, the close and the applied note |
| MergeCloser.FailedCloseRepeatsEvidence | src/sudocode_orchestrator/merge_closer.py:84-92 | when `set_issue_status` raises after the evidence note, the replay sees the tracker as the call did and writes the evidence note a second time |
| MergeCloser.FailedAppliedNoteBackfills | src/sudocode_orchestrator/merge_closer.py:42-63 | when the applied note raises after the close, the replay writes no status, backfills the applied marker exactly when the history lacks one and reports the already-closed skip |
| MergeCloser.SkipClosed | src/sudocode_orchestrator/merge_closer.py:42-64 | the closed branch backfills the applied marker only when the history lacks one, then notes the skip, and writes no status |
| MergeCloser.Reject | src/sudocode_orchestrator/merge_closer.py:130-138 | a rejection writes one note and returns the rejection with its reason |
| MergeCloser.CloseWithCascade | src/sudocode_orchestrator/merge_closer.py:84-119 | the close writes and the fix-child cascade are logged and applied, and the result is applied or the cascade's error |
| PromptRenderer.SkipSpace | src/sudocode_orchestrator/prompt_renderer.py:8 | the whitespace run of the placeholder pattern ends inside the text, not before its start |
| PromptRenderer.SkipName | src/sudocode_orchestrator/prompt_renderer.py:8 | the name run of the placeholder pattern ends inside the text, not before its start |
| PromptRenderer.Placeholder | src/sudocode_orchestrator/prompt_renderer.py:8 | a placeholder match at the start of a text spans more than its two opening braces and fits in the text |
| PromptRenderer.KeyMatch | src/sudocode_orchestrator/prompt_renderer.py:31 | the pattern for one literal key, when it matches, spans at least its braces and fits in the text |
| PromptRenderer.RenderPrompt | src/sudocode_orchestrator/prompt_renderer.py:20-37 | rendering reports missing values, substitutes each required key that has a value, taking the value literally (listed under Left out), and reports placeholders left over, exactly as the rendering specification says |
| PromptRenderer.IssuePayload | src/sudocode_orchestrator/prompt_renderer.py:40-52 | the payload built from an issue holds exactly the required keys |
| PromptRenderer.RenderIssuePrompt | src/sudocode_orchestrator/prompt_renderer.py:40-52 | an issue prompt is the rendering of the template with the issue's payload |
| PromptRenderer.SkipSpaceSpan | src/sudocode_orchestrator/prompt_renderer.py:8 | the whitespace run covers only whitespace and stops at the first other character |
| PromptRenderer.SkipNameSpan | src/sudocode_orchestrator/prompt_renderer.py:8 | the name run covers only letters, digits and underscores and stops at the first other character |
| PromptRenderer.SkipSpaceLocal | src/sudocode_orchestrator/prompt_renderer.py:8 | scanning whitespace depends only on the characters it looks at |
| PromptRenderer.SkipNameLocal | src/sudocode_orchestrator/prompt_renderer.py:8 | scanning a name depends only on the characters it looks at |
| PromptRenderer.PlaceholderNoBrace | src/sudocode_orchestrator/prompt_renderer.py:8 | past its opening braces a placeholder match holds no opening brace |
| PromptRenderer.NonOverlap | src/sudocode_orchestrator/prompt_renderer.py:8 | no placeholder match starts strictly inside another |
| PromptRenderer.PlaceholderLocal | src/sudocode_orchestrator/prompt_renderer.py:8 | a complete match does not depend on the text after its end |
| PromptRenderer.PlaceholderAgree | src/sudocode_orchestrator/prompt_renderer.py:8 | texts agreeing up to the end of a match have the same match |
| PromptRenderer.KeyMatchIsPlaceholder | src/sudocode_orchestrator/prompt_renderer.py:8-31 | the pattern for a key matches exactly where the placeholder pattern matches with that name, with the same length |
| PromptRenderer.FindsEvery | src/sudocode_orchestrator/prompt_renderer.py:21 | `findall` reports the name of every placeholder of the text |
| PromptRenderer.FoundAreReal | src/sudocode_orchestrator/prompt_renderer.py:21 | every name `findall` reports is the name of a placeholder of the text |
| PromptRenderer.NamesExact | src/sudocode_orchestrator/prompt_renderer.py:21 | the names found are exactly the names of the placeholders present |
| PromptRenderer.SubstitutePassesThrough | src/sudocode_orchestrator/prompt_renderer.py:31 | text holding no match of the key passes through substitution unchanged |
| PromptRenderer.NoKeyInside | src/sudocode_orchestrator/prompt_renderer.py:31 | past its opening brace a placeholder holds no match of any key |
| PromptRenderer.SubstituteKeepsHere | src/sudocode_orchestrator/prompt_renderer.py:31 | a placeholder at the start named other than the key is copied to the output |
| PromptRenderer.SubstituteKeeps | src/sudocode_orchestrator/prompt_renderer.py:31 | a placeholder named other than the key survives that key's substitution |
| PromptRenderer.ApplyValuesKeeps | src/sudocode_orchestrator/prompt_renderer.py:26-31 | a placeholder named outside the substituted keys survives the whole substitution loop |
| PromptRenderer.RequiredKeysAreNames | src/sudocode_orchestrator/prompt_renderer.py:9-17 | every required key matches the name part of the placeholder pattern |
| PromptRenderer.MissingValuesIff | src/sudocode_orchestrator/prompt_renderer.py:21-24 | rendering reports missing values exactly when the template has a required placeholder with no value in the payload |
| PromptRenderer.RenderedHasNoPlaceholder | src/sudocode_orchestrator/prompt_renderer.py:33-37 | a successful rendering has no placeholder left anywhere |
| PromptRenderer.UnknownPlaceholderFails | src/sudocode_orchestrator/prompt_renderer.py:21-35 | a placeholder whose name is not a required key always makes rendering fail |
| PromptRenderer.PlainTemplateUnchanged | src/sudocode_orchestrator/prompt_renderer.py:20-37 | a template without placeholders is returned unchanged |
| PromptRenderer.NoNamesIffNoPlaceholder | src/sudocode_orchestrator/prompt_renderer.py:21 | `findall` finds nothing exactly when no placeholder starts anywhere |
| PromptRenderer.SubstituteIdentity | src/sudocode_orchestrator/prompt_renderer.py:31 | substitution leaves a text without placeholders unchanged |
| PromptRenderer.ApplyValuesIdentity | src/sudocode_orchestrator/prompt_renderer.py:26-31 | the substitution loop leaves a text without placeholders unchanged |
| PromptRenderer.IssuePromptNeverMissing | src/sudocode_orchestrator/prompt_renderer.py:40-52 | an issue prompt never reports missing values: in the model it fails only on unresolved placeholders; the source's `re.error` on a value with a bad backslash escape is listed under Left out |
| Runner.ReadOptionalStr | src/sudocode_orchestrator/runner.py:187-197 | a missing key or attribute and a None value read as none, any other value as its string |
| Runner.ResolvedTask | src/sudocode_orchestrator/runner.py:161 | the task id is the given one when it is non-empty and the issue id otherwise |
| Runner.AsCandidate | src/sudocode_orchestrator/runner.py:155-178 | an accepted candidate has a non-blank issue id, a non-empty task id and a priority from 0 to 4 |
| Runner.AcceptedCandidate | src/sudocode_orchestrator/runner.py:155-178 | a candidate is accepted exactly when the id is a non-blank string, the priority an int in range and the ready instant parses, and it carries those values |
| Runner.CandidatesMeans | src/sudocode_orchestrator/runner.py:143-152 | reading candidates is all or nothing: it succeeds exactly when every issue is a candidate, one for one, and otherwise raises the first failure |
| Runner.KeyLessAsymmetric | src/sudocode_orchestrator/runner.py:143-152 | the candidate order is asymmetric |
| Runner.KeyLessTransitive | src/sudocode_orchestrator/runner.py:143-152 | the candidate order is transitive |
| Runner.KeyLessTotal | src/sudocode_orchestrator/runner.py:143-152 | any two candidates compare or share the whole sort key |
| Runner.NotLessTransitive | src/sudocode_orchestrator/runner.py:143-152 | not sorting before is transitive |
| Runner.InsertMeans | src/sudocode_orchestrator/runner.py:143-152 | inserting into an ordered list keeps it ordered and adds exactly the one candidate |
| Runner.SortMeans | src/sudocode_orchestrator/runner.py:143-152 | sorting orders the candidates by priority, ready instant and id, and is a permutation of them |
| Runner.FirstIsLeast | src/sudocode_orchestrator/runner.py:143-152 | the first sorted candidate is one of them and no candidate sorts before it |
| Runner.IdsOf | src/sudocode_orchestrator/runner.py:74-91 | one issue id per candidate, in order |
| Runner.SelectionMeans | src/sudocode_orchestrator/runner.py:126-141 | the selection fits the free slots, keeps sort order, skips active issues, names each once, and passes over a candidate only when it is active, already chosen or the slots are full |
| Runner.SelectionFits | src/sudocode_orchestrator/runner.py:126-141 | a selection fits the free slots and names each inactive issue at most once |
| Runner.SelectCandidates | src/sudocode_orchestrator/runner.py:126-141 | the selection loop picks exactly the selection the specification defines |
| Runner.WorkerPoolDispatcher.constructor | src/sudocode_orchestrator/runner.py:56-72 | a new pool has no active issue and has submitted nothing |
| Runner.CollectMeans | src/sudocode_orchestrator/runner.py:118-124 | collecting drops every done job when none of their results raises; otherwise it re-raises the first exception in the pool's order, having dropped the jobs up to and including the one that raised, and the later done jobs stay active |
| Runner.WorkerPoolDispatcher.CollectFinished | src/sudocode_orchestrator/runner.py:118-124 | the loop pops the done jobs in order and leaves the active set and the re-raised exception the collection specification gives |
| Runner.WorkerPoolDispatcher.PollAndDispatchOnce | src/sudocode_orchestrator/runner.py:74-91 | a done job whose result raises makes the call raise before the ready queue is read; otherwise finished issues are dropped, no poll is made when no slot is free, and the selected ready issues become active, each handed to the pool once, and their ids come back in order |
| Runner.WorkerPoolDispatcher.Submit | src/sudocode_orchestrator/runner.py:85-91 | each selected issue becomes active and is handed to the pool once, in order |
| Runner.NewDispatcher | src/sudocode_orchestrator/runner.py:56-72 | a pool with fewer than one worker is refused with its message, and any other starts idle |
| Runner.CoerceIssuePayload | src/sudocode_orchestrator/runner.py:322-327 | a non-mapping payload raises, a nested issue mapping is preferred to the payload itself |
| Runner.LoadIssueMeans | src/sudocode_orchestrator/runner.py:296-308 | a loaded issue is read from the nested issue mapping when there is one, and it loads exactly when the mapping has all its fields |
| Runner.ErrorSnapshotOk | src/sudocode_orchestrator/runner.py:265-294 | once the claim snapshot validated, the error snapshot of the same session validates too |
| Runner.EmitRunnerErrorSnapshot | src/sudocode_orchestrator/runner.py:271-294 | after a valid claim snapshot the error snapshot is written as one feedback on the issue |
| Runner.SessionOrchestrator.constructor | src/sudocode_orchestrator/runner.py:29-45 | a stand-in orchestrator starts with no run and the given outcome |
| Runner.SessionOrchestrator.RunIssue | src/sudocode_orchestrator/runner.py:29-45 | each run is recorded with its issue, prompt and ids, and returns the outcome |
| Runner.ClaimAndRunCases | src/sudocode_orchestrator/runner.py:228-263 | the attempt by cases: a rejected claim snapshot, a failed load, and a run |
| Runner.ClaimComesFirst | src/sudocode_orchestrator/runner.py:228-263 | every attempt first moves the issue to in_progress and nothing else moves it there |
| Runner.FailureReopens | src/sudocode_orchestrator/runner.py:228-263 | a rejected claim raises after its one write and runs nothing; any failure after the claim ends by reopening the issue, a failed load first writing the error snapshot and running nothing; a success never reopens and runs exactly one session under the claim's session id |
| Runner.IssueSessionRunner.constructor | src/sudocode_orchestrator/runner.py:201-218 | the runner keeps its gateway, orchestrator and settings |
| Runner.IssueSessionRunner.Prepare | src/sudocode_orchestrator/runner.py:243-250 | loading the issue and rendering its prompt gives what the specification prepares from the shown issue |
| Runner.IssueSessionRunner.ClaimAndRunIssue | src/sudocode_orchestrator/runner.py:228-263 | the attempt writes exactly the specified writes and returns the specified result |
| Runner.IssueSessionRunner.RunClaimed | src/sudocode_orchestrator/runner.py:236-263 | after the claim, the load, the run and the failure path write what the specification continues with |
| Runner.IssueSessionRunner.PollReadyAndRunOnce | src/sudocode_orchestrator/runner.py:220-226 | one ready query is made; a bad ready list raises, an empty one runs nothing, and otherwise the first candidate in sort order is run and its id returned |
| Runner.RunnerPicksLeast | src/sudocode_orchestrator/runner.py:220-226 | the runner picks a candidate no other sorts before |
| RuntimeConfig.Split | src/sudocode_orchestrator/utils/config.py:27 | a split always gives at least one piece |
| RuntimeConfig.SplitPiecesLackSeparator | src/sudocode_orchestrator/utils/config.py:27 | no piece of a split holds the separator |
| RuntimeConfig.SplitJoin | src/sudocode_orchestrator/utils/config.py:27 | joining the pieces with the separator gives back the input |
| RuntimeConfig.JoinSplit | src/sudocode_orchestrator/utils/config.py:27 | splitting a join of separator-free pieces gives back the pieces |
| RuntimeConfig.StripAll | src/sudocode_orchestrator/utils/config.py:27 | one stripped entry per piece, in order |
| RuntimeConfig.NonEmpty | src/sudocode_orchestrator/utils/config.py:36-39 | the filter keeps only non-empty entries and never adds one |
| RuntimeConfig.NonEmptyKeepsAll | src/sudocode_orchestrator/utils/config.py:36-39 | the filter keeps every entry exactly when none is empty |
| RuntimeConfig.Strs | src/sudocode_orchestrator/utils/config.py:29-33 | one string per list item, in order |
| RuntimeConfig.ParseTargetPipelines | src/sudocode_orchestrator/utils/config.py:25-42 | the validator computes the target-pipelines specification |
| RuntimeConfig.CollectEntries | src/sudocode_orchestrator/utils/config.py:29-33 | the list branch strips each string item and rejects the first non-string |
| RuntimeConfig.StripIdempotent | src/sudocode_orchestrator/utils/config.py:27 | stripping twice is stripping once |
| RuntimeConfig.TargetPipelinesAccepted | src/sudocode_orchestrator/utils/config.py:25-42 | an accepted list is non-empty with non-empty stripped names, and a rejection is one of the four messages |
| RuntimeConfig.TargetPipelinesRoundTrip | src/sudocode_orchestrator/utils/config.py:25-42 | names without commas or surrounding whitespace survive both the comma-string and the list form |
| RuntimeConfig.ParseLlmDailyCap | src/sudocode_orchestrator/utils/config.py:71-84 | an absent cap is 30, and otherwise the stripped text must be a positive integer |
| RuntimeConfig.DailyCapRoundTrip | src/sudocode_orchestrator/utils/config.py:71-84 | every positive cap written in decimal reads back as itself |
| RuntimeConfig.MissingKeys | src/sudocode_orchestrator/utils/config.py:48-54 | the missing keys are exactly the required keys that are absent or blank |
| RuntimeConfig.LoadRuntimeSettings | src/sudocode_orchestrator/utils/config.py:45-68 | missing or blank required keys are reported first, then a bad cap with its own message, then a bad target list under the invalid-settings prefix, and otherwise the settings carry the parsed targets, the given or default checkpoint path, the cap and the Langfuse host |
| Secrets.DropRun | src/orchestrator/utils/secrets.py:149-151 | dropping the leading separators never lengthens the name and leaves it empty or starting with a letter or digit |
| Secrets.SquashShape | src/orchestrator/utils/secrets.py:149-151 | squashing leaves no two underscores together and keeps a leading letter or digit |
| Secrets.StripUnderscoresShape | src/orchestrator/utils/secrets.py:149-151 | trimming the underscores leaves a squashed name that neither starts nor ends with one |
| Secrets.EnvNameShape | src/orchestrator/utils/secrets.py:149-151 | every environment name is the SECRET_ prefix followed by a canonical upper-case name |
| Secrets.CanonicalNameIsFixed | src/orchestrator/utils/secrets.py:149-151 | a canonical name maps to itself behind the prefix |
| Secrets.SquashOfSquashed | src/orchestrator/utils/secrets.py:149-151 | squashing an already squashed name changes nothing |
| Secrets.UpperOfUpper | src/orchestrator/utils/secrets.py:149-151 | upper-casing upper-case letters and digits changes nothing |
| Secrets.ClassifySecretError | src/orchestrator/utils/secrets.py:126-146 | the failure keeps the key and the provider, its reason is the stripped message or else the class name, and it is transient exactly for the transient kinds |
| Secrets.GetFromBackend | src/orchestrator/utils/secrets.py:116-123 | a value or a secret error passes through, and any other failure is classified |
| Secrets.BackendFailuresAreSecretErrors | src/orchestrator/utils/secrets.py:116-123 | a backend failure always surfaces as a secret error |
| Secrets.PyRepr | src/orchestrator/utils/secrets.py:73 | the text of `KeyError(key)` is `repr(key)`: the text between two equal quotes, a double quote exactly when the key holds a single quote and no double quote |
| Secrets.PlainRepr | src/orchestrator/utils/secrets.py:73 | a key of printable characters without quotes or backslashes is written between single quotes, unchanged |
| Secrets.QuotedRepr | src/orchestrator/utils/secrets.py:73 | a key holding a single quote and no double quote is written between double quotes |
| Secrets.EnvBackendGet | src/orchestrator/utils/secrets.py:53-58 | the environment backend returns the non-empty stripped value of the derived name and raises exactly when that value is blank |
| Secrets.GetSecret | src/orchestrator/utils/secrets.py:77-113 | a blank key is a permanent error; an explicit backend is used alone; otherwise the environment is tried, then the Databricks scope, and without a scope a permanent error |
| Secrets.EnvMissFallsBack | src/orchestrator/utils/secrets.py:94-113 | an environment miss falls back to the Databricks scope, the Databricks scope variable taking precedence over the Key Vault one |
| Secrets.EnvStubWins | src/orchestrator/utils/secrets.py:94-97 | a secret stored under its environment name is found there, stripped, whatever the other sources hold |
| SessionLoop.Gateway.constructor | src/sudocode_orchestrator/session_loop.py:22-23 | a stand-in gateway starts with no write and no ready query |
| SessionLoop.Gateway.GetReadyIssues | src/sudocode_orchestrator/session_loop.py:22-23 | a ready query counts itself, answers the ready list and writes nothing |
| SessionLoop.Gateway.ShowIssue | src/sudocode_orchestrator/session_loop.py:22-23 | a show answers the stand-in's issue for that id |
| SessionLoop.Gateway.SetIssueStatus | src/sudocode_orchestrator/session_loop.py:42 | a status write is logged; the stand-in's writes never fail (listed under Left out) |
| SessionLoop.Gateway.AddFeedback | src/sudocode_orchestrator/session_loop.py:279-309 | a feedback write is logged with its event; it never fails (listed under Left out) |
| SessionLoop.Gateway.CreateFixIssue | src/sudocode_orchestrator/session_loop.py:233 | creating the fix issue is logged and answers the new id |
| SessionLoop.Gateway.LinkIssues | src/sudocode_orchestrator/session_loop.py:234 | a link is logged; it never fails (listed under Left out) |
| SessionLoop.Agents.constructor | src/sudocode_orchestrator/session_loop.py:25-35 | the stand-in agents start with no call and no implementation |
| SessionLoop.Agents.CallImplementer | src/sudocode_orchestrator/session_loop.py:43 | each implementer call is logged with its fix list and answers the next implementation |
| SessionLoop.Agents.CallSpecReviewer | src/sudocode_orchestrator/session_loop.py:58-60 | each spec review is logged with its attempt and answers that attempt's review |
| SessionLoop.Agents.CallQualityReviewer | src/sudocode_orchestrator/session_loop.py:107-111 | each quality review is logged with its attempt and answers that attempt's review |
| SessionLoop.CountsAppend | src/sudocode_orchestrator/session_loop.py:56-158 | one more call adds one to the review count of its own kind only |
| SessionLoop.FixesFollowAppend | src/sudocode_orchestrator/session_loop.py:92-158 | an implementer call carrying the last failed review's fix list keeps the fix lists flowing |
| SessionLoop.FixesFollowAt | src/sudocode_orchestrator/session_loop.py:92-158 | every implementer call after the first carries the fix list of the failed review just before it |
| SessionLoop.StrItems | src/sudocode_orchestrator/session_loop.py:279-309 | one JSON string per item, in order |
| SessionLoop.SnapshotOfWellFormed | src/sudocode_orchestrator/session_loop.py:279-309 | a built snapshot validates exactly when the event is acceptable for the session |
| SessionLoop.SnapshotOfShape | src/sudocode_orchestrator/session_loop.py:279-320 | a built snapshot holds the session's ids and time and the event's fields, field by field |
| SessionLoop.EventRejection | src/sudocode_orchestrator/session_loop.py:279-309 | an event's snapshot has a rejection message exactly when the event is not acceptable |
| SessionLoop.EventRejectionExact | src/sudocode_orchestrator/session_loop.py:279-309 | the snapshot of an event is rejected with exactly that message |
| SessionLoop.VerifyErrorOf | src/sudocode_orchestrator/session_loop.py:311-320 | the serialised verification is rejected only for a negative exit code or an unparsable time |
| SessionLoop.LoopEventsCorrected | src/sudocode_orchestrator/session_loop.py:25-204 | with the corrected enumerations every snapshot the loop writes passes the enumeration checks, leaving only the session id, the time and the verification block to fail |
| SessionLoop.ReviewGateRejectedAsWritten | src/sudocode_orchestrator/session_loop.py:174-186 | with the enumerations as written, the review-gate snapshot of a finished or overflowing session is rejected |
| SessionLoop.EmitSnapshot | src/sudocode_orchestrator/session_loop.py:279-309 | a snapshot is written as one feedback exactly when it validates, and otherwise nothing is written and the validation error is raised |
| SessionLoop.SingleSessionOrchestrator.constructor | src/sudocode_orchestrator/session_loop.py:22-23 | the orchestrator keeps its gateway and validates snapshots with the enumerations it is given, those of `snapshot.py` as written or the corrected ones |
| SessionLoop.SingleSessionOrchestrator.Snap | src/sudocode_orchestrator/session_loop.py:279-309 | the snapshot is added as feedback exactly when it validates, and otherwise nothing is written |
| SessionLoop.SingleSessionOrchestrator.RunIssue | src/sudocode_orchestrator/session_loop.py:25-204 | the session first moves the issue to in_progress, makes at most 3 spec and 2 quality reviews, passes each failed review's fix list to the implementer, reviews quality only after the spec review passed, ends in needs_review only after a passed quality review and fresh verification, ends in an overflow only after the last allowed failure, and on an exception raises the same message with the session-error snapshot as its last write whenever that snapshot validates; a session that reaches the review gate has moved the issue to needs_review before its gate snapshot is validated, and it succeeds exactly when that snapshot validates and otherwise raises that snapshot's rejection, so with the enumerations as written (`ReviewGateRejectedAsWritten`) every such session raises after the needs_review write; a session that never reaches the gate never writes needs_review |
| SessionLoop.SingleSessionOrchestrator.Body | src/sudocode_orchestrator/session_loop.py:41-186 | the body of the session keeps the same call trail and ends as the session does |
| SessionLoop.SingleSessionOrchestrator.AfterSpecPass | src/sudocode_orchestrator/session_loop.py:105-186 | once the spec review passed, the quality loop and the verification gate end as the session does |
| SessionLoop.SingleSessionOrchestrator.Start | src/sudocode_orchestrator/session_loop.py:42-54 | the issue moves to in_progress, the implementer is called once with no fix list and its snapshot is written |
| SessionLoop.SingleSessionOrchestrator.SpecPhase | src/sudocode_orchestrator/session_loop.py:56-103 | the spec loop ends on a pass, or overflows after the third failed review, with each failure's fix list handed to the implementer |
| SessionLoop.SingleSessionOrchestrator.SpecReviewStep | src/sudocode_orchestrator/session_loop.py:57-78 | one spec review with the next attempt number and, when it answers, its snapshot |
| SessionLoop.SingleSessionOrchestrator.FixStep | src/sudocode_orchestrator/session_loop.py:92-103 | the implementer is called on the failed review's fix list and its fix snapshot is written |
| SessionLoop.SingleSessionOrchestrator.QualityPhase | src/sudocode_orchestrator/session_loop.py:105-158 | the quality loop ends on a pass, or overflows after the second failed review, with each failure's fix list handed to the implementer |
| SessionLoop.SingleSessionOrchestrator.QualityReviewStep | src/sudocode_orchestrator/session_loop.py:106-131 | one quality review with the next attempt number and, when it answers, its snapshot |
| SessionLoop.SingleSessionOrchestrator.Finish | src/sudocode_orchestrator/session_loop.py:159-186 | a fresh passing verification moves the issue to needs_review and then tries the review-gate snapshot, succeeding exactly when it validates; a stale or failing one stops without that write |
| SessionLoop.SingleSessionOrchestrator.HandleOverflow | src/sudocode_orchestrator/session_loop.py:214-249 | an overflow creates the fix issue, links it, moves the original to needs_review and then tries the review-gate snapshot, reporting the fix id exactly when it validates; a failed create raises before any needs_review write |
| SessionLoop.SingleSessionOrchestrator.CreateOverflowFix | src/sudocode_orchestrator/session_loop.py:228-235 | the fix issue is created with its title and body, linked to the original as depends-on, and the original moved to needs_review |
| SessionLoop.QualityAfterNone | src/sudocode_orchestrator/session_loop.py:105-158 | before any quality review the quality-after-spec rule holds for any pass index |
| SessionLoop.TrailAppendReview | src/sudocode_orchestrator/session_loop.py:56-78 | one more spec review within the bound keeps the call trail |
| SessionLoop.TrailAppendQuality | src/sudocode_orchestrator/session_loop.py:105-131 | one more quality review within the bound keeps the call trail |
| SessionLoop.TrailAppendFix | src/sudocode_orchestrator/session_loop.py:92-158 | an implementer call on the last failed review's fix list keeps the call trail |
| Snapshot.FirstNonString | src/sudocode_orchestrator/snapshot.py:107-109 | the first text field whose value is not a string is reported, and none exactly when all are strings |
| Snapshot.CountError | src/sudocode_orchestrator/snapshot.py:143-149 | an attempts counter is accepted exactly when it is present, a strict int and not negative |
| Snapshot.AttemptsError | src/sudocode_orchestrator/snapshot.py:131-149 | the attempts block is accepted exactly when it is a mapping with exactly the spec and quality counters, both valid |
| Snapshot.ListError | src/sudocode_orchestrator/snapshot.py:151-157 | a list field is accepted exactly when it is a list of strings |
| Snapshot.VerifyError | src/sudocode_orchestrator/snapshot.py:161-192 | the verify block is accepted exactly when it is null or a well-formed verification record |
| Snapshot.FieldError | src/sudocode_orchestrator/snapshot.py:111-192 | with the right keys and text fields, the remaining checks fail exactly when the snapshot is not well formed |
| Snapshot.ValidateSpec | src/sudocode_orchestrator/snapshot.py:95-197 | a snapshot validates exactly when it is well formed and comes back as it is, and unknown fields are reported before missing ones |
| Snapshot.Rejection | src/sudocode_orchestrator/snapshot.py:95-197 | a rejection message exists exactly when the snapshot is not well formed |
| Snapshot.RejectionIsFieldCheck | src/sudocode_orchestrator/snapshot.py:107-192 | with the right keys and every text field a string, validation comes down to the field checks |
| Snapshot.ValidateIdempotent | src/sudocode_orchestrator/snapshot.py:95-197 | validating a validated snapshot gives the same result |
| Snapshot.CheckStringFields | src/sudocode_orchestrator/snapshot.py:107-109 | the text-field loop reports the first non-string field |
| Snapshot.FirstNonStringOrderFree | src/sudocode_orchestrator/snapshot.py:107-109 | whether some text field is not a string does not depend on the order in which the fields are checked |
| Snapshot.CheckList | src/sudocode_orchestrator/snapshot.py:151-157 | the list loop rejects exactly the values that are not lists of strings |
| Snapshot.CheckAttempts | src/sudocode_orchestrator/snapshot.py:131-149 | the attempts checks give the attempts rejection |
| Snapshot.CheckVerify | src/sudocode_orchestrator/snapshot.py:161-192 | the verify checks give the verify rejection |
| Snapshot.ValidateSnapshot | src/sudocode_orchestrator/snapshot.py:95-197 | validation accepts exactly the well-formed snapshots, returns them unchanged, and otherwise raises the message of the first failing check |
| Snapshot.FieldChecks | src/sudocode_orchestrator/snapshot.py:111-192 | the checks after the key set and the text fields give the field rejection |
| Snapshot.EmitSnapshotJson | src/sudocode_orchestrator/snapshot.py:200-202 | only a well-formed snapshot is serialised, and a malformed one raises its validation message |
| Snapshot.AsWrittenRejectsReviewGate | src/sudocode_orchestrator/snapshot.py:41-51 | with the stages as written, any snapshot whose stage is REVIEW_GATE is rejected |
| Snapshot.CorrectedAcceptsReviewGate | src/sudocode_orchestrator/snapshot.py:41-58 | with REVIEW_GATE and NEEDS_REVIEW added, a snapshot well formed as written still validates once moved to that stage and status |
| Snapshot.CorrectedExtendsAsWritten | src/sudocode_orchestrator/snapshot.py:26-58 | everything the written enumerations accept the corrected ones accept |
| Watchdog.MicrobatchDue | runtime/watchdog.py:22-23 | the microbatch rule raises exactly when the period is zero |
| Watchdog.PollMeans | runtime/watchdog.py:26-56 | the polled list keeps the targets' order, holds exactly the due targets, skips unknown and misconfigured daily targets, and fails only when the microbatch target is listed with a zero period |
| Watchdog.PipelinesToPoll | runtime/watchdog.py:26-56 | the polling loop computes the polled list the specification defines |
| Watchdog.RunOnce | runtime/watchdog.py:59-80 | the configured targets are reported unchanged beside the polled ones, and a polling error is raised |

## Left out

- Subprocesses and the network: the `gh` and `sudocode` command lines (`GhCliPoller._run_json`, `_resolve_repo_slug`, `_graphql_command`), the dispatcher's `run_command` and `run_json`, the MCP transport and the LLM's HTTP request. Their answers are inputs to the model: scripted pages, an `Mcp` answer function, a requester answer per attempt, and the dispatcher's `Env` oracles.
- File writes: `_atomic_write_json` (temporary file, fsync, rename) and the heartbeat, checkpoint and health-state files. These are abstract stores written once per call. The dispatcher's `write_artifacts` log and metadata files are not modelled, and neither is the `OSError` that `write_artifacts_safe` swallows.
- Operating-system calls of the pid lock: `os.open` with `O_EXCL`, `os.kill` and `os.getpid`. They become a pid probe function and the lock file's three states. No real race between two processes is modelled.
- Dates and clocks: ISO-8601 parsing and formatting, `fromisoformat`, the KST conversion and `datetime.now()`. Instants are integer seconds. Parsing is a parameter (a `Clock` or a `parses` predicate standing for the UTC pattern of `snapshot.py`). The watchdog's moment is given as its UTC minute and its Korean "HH:MM" text.
- MergeCloseDaemon.Daemon.PollOnce: the daemon's `now` is one parameter per cycle. The source reads its clock once for every processed entry and once more for the heartbeat, so entries of one cycle share a single timestamp in the model.
- Concurrency: `WorkerPoolDispatcher` runs sessions on a `ThreadPoolExecutor`. Futures and `wait_for_idle` are not modelled, nor are `shutdown`, `_assert_single_caller` and `_run_claimed_issue`. Which futures have finished, in the order of the active dict, and the exception each re-raises are an input to `PollAndDispatchOnce`.
- `run_forever` in the daemon is an endless loop with no cancellation. The model has single cycles and runs of cycles.
- `run_dry_run` and `main` of `runner.py`, `main` of the health check, the dispatcher's `parse_args` and its JSON print, and the daemon's entry point are argument parsing and printing.
- SQLite: the incident registry of `agent_runner.py` and the LLM daily-usage table are maps. SQL and transactional atomicity are not modelled. `invoke_llm`'s choice of database path is not modelled either.
- The langgraph adapter, `_build_langgraph` and the checkpointer of `agent_runner.py` are library code. The graph's run is an input (`graphResult`). This leaves the incident graph's shim interpreter as the graph the model runs.
- The graph's node bodies other than `detect` raise `NotImplementedError` in the source. The interpreter takes them as a parameter (`others`). Detect's cutoff threshold and its pipeline timestamp reader are given, in place of the monitoring-configuration load.
- Configuration loaders built on pydantic and YAML are not modelled, and `load_pipeline_monitoring_config` is among them. The watchdog receives the parts of the configuration it reads. A pydantic validation error's text is modelled as the validator's own message under the `Invalid runtime settings: ` prefix.
- `int()` on text is modelled for an optional sign followed by ASCII digits, after `strip`. Python also accepts underscores between digits and non-ASCII whitespace and digits. The model does not.
- `json.loads`, `json.dumps` and `repr` are oracles (bad_records, the closer's history entries, the dispatcher's tracker answers, the health check's heartbeat and state files, whose contents are either a decoded value or the decode error). A snapshot feedback's text is represented by its event, whose JSON is `SnapshotOf` for the session.
- Python's set iteration order in `render_prompt`'s loop over `REQUIRED_KEYS` is a parameter: any order of the seven keys.
- PromptRenderer.RenderPrompt and PromptRenderer.IssuePromptNeverMissing: `render_prompt` passes each value to `re.sub` as a replacement template (`prompt_renderer.py:31`), and the model substitutes it literally. In the source, `\n`, `\t` and the other standard escapes in a value are expanded and `\\` becomes one backslash. An unknown escape such as `\d`, a trailing backslash, or a group reference such as `\1` (the pattern has no groups) makes `re.sub` raise `re.error`. `render_prompt` then raises. The runner treats that as a failed session: it writes the error snapshot and reopens the issue. So an issue prompt can fail on a value's backslashes as well as on unresolved placeholders, and `IssuePromptNeverMissing` holds only for values without backslashes.
- MergeCloser.Tracker.SetIssueStatus: never raises in the model. The source's `set_issue_status` at `merge_closer.py:92` and `:106` can raise; for example, the real gateway re-raises after its third attempt (`McpGateway.SudocodeGateway.CallWithRetry`). The closer does not catch it. `poll_once` counts the record as skipped and does not mark it processed (`merge_close_daemon.py:339-346`), so a later cycle replays it. `MergeCloser.FailedCloseRepeatsEvidence` proves that this replay writes the evidence note a second time.
- MergeCloser.FeedbackKeepsIssues, MergeCloser.Tracker.AddIssueFeedback and MergeCloser.ReplayAfterApplyIsSkip: a feedback note never joins the history that `show_issue` returns. The model's tracker works like the unit tests' `FakeGateway` (`tests/unit/test_merge_closer.py:10-34`): a status write changes the stored issue, and a note is only logged. A real tracker appends each note to the issue's feedback history. The closer reads markers back from that history (`merge_closer.py:40`, `:44`, `:122-125`). How the tracker stores a note, and how its JSON text reads back through `_coerce_history_entry`, lies outside the repository, so the model does not fix it. The difference shows on a replay after a successful close of an issue whose history had no MERGE_CLOSE_APPLIED entry, such as a workflow close later replayed by the daemon, or a cycle re-run after a lost checkpoint. Against a real tracker the replay finds the applied marker and writes only the MERGE_CLOSE_SKIPPED_ALREADY_CLOSED note. In the model it writes a backfill MERGE_CLOSE_APPLIED note first, as `MergeCloser.ReplayAfterApplyBackfills` proves for an issue that is not a fix child. `ReplayAfterApplyIsSkip` therefore promises no status write and the skip result, but not a single write. The at-most-once theorems concern status writes only, and they are unaffected.
- MergeCloser.Tracker.AddIssueFeedback: never raises in the model. The source's `add_feedback` (`merge_closer.py:162`) can raise in the same way. When the MERGE_CLOSE_APPLIED note raises after the close, the replay takes the backfill branch (`:42-50`); `MergeCloser.FailedAppliedNoteBackfills` proves this.
- MergeCloser.ApplyMergeClose: the method and the daemon methods that call it (`MergeCloseDaemon.Daemon.DispatchRecord` and its callers, down to `RunOnceWithLock`) are proved against a tracker whose writes never raise. A raising write is modelled on values only. `MergeCloser.CutShort` is the outcome of a call whose write raised: the writes made before it, then the error. `MergeCloseDaemon.IsFallibleApplyMergeClose` is a closer allowed such outcomes. `MergeCloser.CutShortKeepsAtMostOnce`, `MergeCloseDaemon.FallibleApplyMergeCloseKeepsAtMostOnce` and `MergeCloseDaemon.CycleKeepsAtMostOnce` prove the at-most-once invariant for it. `MergeCloseDaemon.CycleAddsAccepted` and `ReplaySkipsAccepted` hold for any closer.
- LlmClient.InvokeLlm: the final `raise LLMTransientError("retry attempts exhausted")` is not modelled. It cannot be reached, because the last attempt always returns or raises.
- McpGateway.SudocodeGateway.CallWithRetry: the final `RuntimeError("Retry loop exhausted unexpectedly")` is not modelled. It cannot be reached, because the third attempt returns or re-raises.
- LlmClient.Attempt: a response's `status` is taken to be an int or absent. `int(status)` on text or other objects is not modelled.
- Dispatcher.Shell.Dispatch: `KeyboardInterrupt` (exit 130) is not modelled, and neither are an `OSError` raised by a subprocess start or the UTC stamp naming the log files. The `--on-success`, `--on-failure` and `--logs-dir` options are parsed but never used by the source's status logic, so they are not modelled. `normalize_command`'s `command or ""` is a string parameter that is never `None`.
- Secrets: `_resolve_dbutils` (importing pyspark) and the `_dbutils` cache of `DatabricksSecretBackend` are not modelled. The Databricks lookup is an oracle over scope and key.
- Logging calls (`_LOGGER.warning`, `_LOGGER.info`) and uuid5 session ids are not modelled. Session ids are given as values.
- Exception classes are reduced to what callers tell apart. Most messages are kept as the source writes them. Messages built by Python's `repr` of a value are oracles.
- MergeCloser.LatestMarkerTimestamp: the `TypeError` that Python raises when a naive and a timezone-aware timestamp are compared (`timestamp > latest` at `merge_closer.py:227` and `:245`) is not modelled. Instants are integer seconds and always comparable. The snapshots the session loop writes carry UTC-aware stamps, so mixed kinds arise only from hand-written feedback.
- MergeCloser.RejectionReason: the same naive-versus-aware `TypeError` in `review_gate_marker_at <= latest_reopen_at` (`merge_closer.py:80`) is not modelled, for the same reason.
- Runner.SortMeans: `sorted` raises a `TypeError` when two candidates tie on priority and one `ready_at` is naive and the other aware (`runner.py:143-152`). It is not modelled, because which pairs the sort compares depends on its algorithm. The model orders instants as integers.
- Healthcheck.CoerceInt: the JSON model has no floating-point numbers, so `_coerce_int` on a float such as `2.0`, which gives the default, cannot be expressed. Every JSON number in the model is an int.
- Json: no JSON reader in the model ever sees a float, since `Common.Json` has none. Where the source compares a decoded number with `==`, Python's `1.0 == 1` would accept a float: `MergeCloseDaemon.LoadErrorIff`'s "schema version is not 1" does not cover a checkpoint whose `schema_version` is `1.0`, which the source accepts. The same holds for every other reader of decoded JSON (the closer's history, the health check's heartbeat and state files, the snapshot validator, the dispatcher's tracker answers).
- Snapshot.FirstNonString: `STRING_FIELDS` is a Python set, so the field the source reports first is whichever its iteration order visits first. The model checks the fields in one fixed order. Which message is raised may therefore differ. Whether one is raised does not, and `Snapshot.FirstNonStringOrderFree` proves this.
- Snapshot.CheckStringFields: the same fixed order stands for the set's unspecified iteration order.
- SessionLoop.Gateway: the stand-in gateway's writes never fail. In the source, `set_issue_status`, `add_feedback` and `link_issues` can raise. For example, the real gateway re-raises after its third attempt. `run_issue` then runs its `except` handler: it writes a SESSION_ERROR snapshot whose `failed_items` is the write's message, and re-raises that exception. If the error snapshot's own `add_feedback` raises too, that second exception escapes instead. The model cannot express either run. Only a failed `create_fix_issue` is modelled, as the `newFixId` answer.
- SessionLoop.Gateway.SetIssueStatus: never fails; the source's `set_issue_status` at `session_loop.py:42`, `:174` and `:235` can raise inside the `try`, which ends the session through the error handler.
- SessionLoop.Gateway.AddFeedback: never fails; every snapshot write (`session_loop.py:309`) can raise in the source, including the SESSION_ERROR write in the `except` handler (`:187-204`), whose own exception then replaces the original one.
- SessionLoop.Gateway.LinkIssues: never fails; `link_issues` at `session_loop.py:234` can raise in the source, after the fix issue was created and before the original moves to `needs_review`.
- SessionLoop.SingleSessionOrchestrator.RunIssue: its error-path promise (the same message is raised, with the SESSION_ERROR snapshot as the last write whenever it validates) rests on gateway writes that cannot fail. A write that raises is neither modelled as ending the session nor as replacing the raised message.
- Claim.ClaimIssue and Runner.IssueSessionRunner.ClaimAndRunIssue use the same infallible stand-in gateway. A status or feedback write that raises during the claim, the load-failure handler or the reopen after a failed run (`runner.py:238-263`) is not modelled.
- Secrets.PyRepr: Python's `repr` of a str is modelled exactly for ASCII text. Non-ASCII characters are written as themselves, while Python escapes the non-printable ones (for example U+0085 as `\x85`). The environment stub's `KeyError` names only `[A-Z0-9_]` characters, so its quoted name is exact.
- ActionPlan.YearText: the model follows the C library's `%Y` on Linux, which prints a year below 1000 without leading zeros, as CPython passed it through before gh-120713. CPython releases with that change zero-pad `%Y`; there a date such as `0999-01-01` round-trips and is accepted, while the model rejects it.
- Watchdog.MicrobatchDue: the modulo error is given the message `integer division or modulo by zero` of older CPython releases. Newer releases say `integer modulo by zero`.
- Common.Lower and Common.Upper map ASCII letters only. Python's `str.lower` and `str.upper` also map other letters, for example U+212A KELVIN SIGN to `k`. This touches the closer's status and reopen comparisons and the secrets' key names and transient markers.
- Stale tests: `tests/unit/test_session_loop.py` expects statuses `closed` and `related`, which the session loop never writes, and `tests/unit/test_action_plan.py` imports functions `action_plan.py` does not define. The model follows the code.

## Where the code and its documentation disagree

The model follows the code in each of these cases:

- Parent linkage is the sorted union of all three link shapes, rather than the first shape found (`merge_closer.py:264-308`).
- A reopen rejects the close when its time is equal to or later than the latest gate time (`merge_closer.py:80`).
- A `ValueError` from `_replay_identity_key` for a pull-request URL without a repository slug escapes `poll_once`; the record is not skipped.
- A `safe_mode` field persisted in the checkpoint is ignored on load.
- The poller skips records older than the watermark but keeps paging while `hasNextPage` holds.

## Findings

| source | as written | input that shows it | evidently intended | confidence | as-written member | corrected member |
|---|---|---|---|---|---|---|
| src/sudocode_orchestrator/snapshot.py:41-58 | the stage set lacks `REVIEW_GATE` and the status set lacks `NEEDS_REVIEW`, yet `session_loop.py` emits both when a session finishes and when it overflows | a session whose quality review passes with fresh verification: its `SESSION_DONE` / `REVIEW_GATE` / `NEEDS_REVIEW` snapshot is rejected, so `run_issue` raises right after moving the issue to `needs_review` | both values belong to the enumerations, so finished and overflowing sessions are recorded | not executed | Snapshot.AsWrittenRejectsReviewGate | Snapshot.CorrectedAcceptsReviewGate |
| src/sudocode_orchestrator/session_loop.py:174-186 | the review-gate snapshot is validated against the enumerations as written | any loop event with stage `REVIEW_GATE` | the loop's snapshots validate whenever their session id, time and verification are valid | not executed | SessionLoop.ReviewGateRejectedAsWritten | SessionLoop.LoopEventsCorrected |

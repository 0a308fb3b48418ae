/** The opencode dispatcher script: it picks a tracker issue, claims it by setting
    it to `in_progress`, runs one `opencode run --command ...` on it, and then moves
    the issue to `needs_review` on success or back to `open` on failure.

    The subprocesses (the tracker CLI and opencode), the PATH lookup and the JSON
    decoding of the tracker's answers are the `Env` oracles. A `Shell` object
    answers from them and keeps the log of every call the script makes, in order. */
module Dispatcher {
  import opened Common

  const FAILURE_MARKERS: seq<string> := ["Execution did not complete successfully", "Changes unavailable"]
  const SUCCESS_STATUS: string := "needs_review"
  const FAILURE_STATUS: string := "open"
  const IN_PROGRESS: string := "in_progress"
  const VALID_INITIAL_STATUSES: set<string> := {"open", "in_progress"}

  const EMPTY_COMMAND: string := "OpenCode command is empty after normalization"
  const NO_READY_ISSUES: string := "No ready issues available"
  const BAD_READY_ISSUE: string := "Unable to parse ready issue id"
  const READY_ARGS: seq<string> := ["sudocode", "--json", "ready"]

  // ---------------------------------------------------------------------------
  // Command normalisation

  /** `normalize_command`: strip, drop one leading slash, strip again. */
  function NormalizeCommand(command: string): string {
    var s := Strip(command);
    Strip(if StartsWith(s, "/") then s[1..] else s)
  }

  /** `r` sits at offset `a` of `command`. In front of it there is only whitespace
      and at most one slash, and when there is no slash `r` does not start with one;
      behind it there is only whitespace. */
  predicate CutAt(command: string, r: string, a: nat) {
    && a + |r| <= |command| && command[a..a + |r|] == r
    && (forall i :: 0 <= i < a ==> IsSpace(command[i]) || command[i] == '/')
    && (forall i, j :: 0 <= i < j < a && command[i] == '/' ==> command[j] != '/')
    && ((forall i :: 0 <= i < a ==> command[i] != '/') ==> !StartsWith(r, "/"))
    && (forall i :: a + |r| <= i < |command| ==> IsSpace(command[i]))
  }

  /** The normalised command is a slice of the raw one without whitespace at its ends;
      in front of it only whitespace and at most one slash were removed (and the slash
      was removed whenever there was one), behind it only whitespace. */
  lemma NormalizeCommandShape(command: string)
    ensures var r := NormalizeCommand(command);
      && (r == [] || (!IsSpace(r[0]) && !IsSpace(r[|r| - 1])))
      && exists a: nat :: CutAt(command, r, a)
  {
    var s := Strip(command);
    StripShape(command);
    var a0: nat :| SpaceAround(command, s, a0);
    var r := NormalizeCommand(command);
    if StartsWith(s, "/") {
      StripShape(s[1..]);
      SlashCut(command, s, a0, r);
    } else {
      if s != [] { StripOfNonSpaceEnds(s); }
      assert r == s;
      assert CutAt(command, r, a0);
    }
  }

  lemma SlashCut(command: string, s: string, a0: nat, r: string)
    requires SpaceAround(command, s, a0) && StartsWith(s, "/") && r == Strip(s[1..])
    ensures exists a: nat :: CutAt(command, r, a)
  {
    var t := s[1..];
    StripShape(t);
    var a1: nat :| SpaceAround(t, r, a1);
    var a := a0 + 1 + a1;
    assert command[a0] == '/' by { assert command[a0] == s[0]; }
    assert forall i :: a0 < i < a0 + |s| ==> command[i] == t[i - a0 - 1] by {
      forall i | a0 < i < a0 + |s| ensures command[i] == t[i - a0 - 1] {
        assert command[i] == s[i - a0];
      }
    }
    assert command[a..a + |r|] == r;
    assert forall i :: a0 < i < a ==> IsSpace(command[i]);
    assert CutAt(command, r, a);
  }

  // ---------------------------------------------------------------------------
  // Success classification

  /** `CommandResult`: the arguments run, the exit code and both outputs. */
  datatype CommandResult = CommandResult(args: seq<string>, returncode: int, stdout: string, stderr: string)

  /** `final_status_for_success` */
  function FinalStatusForSuccess(success: bool): (r: string)
    ensures r in {SUCCESS_STATUS, FAILURE_STATUS}
    ensures r == SUCCESS_STATUS <==> success
  {
    if success then SUCCESS_STATUS else FAILURE_STATUS
  }

  predicate HasFailureMarker(text: string) {
    exists k :: 0 <= k < |FAILURE_MARKERS| && Contains(text, FAILURE_MARKERS[k])
  }

  /** `classify_success` */
  function ClassifySuccess(result: CommandResult): bool {
    if result.returncode != 0 then false
    else
      var out := Strip(result.stdout);
      var err := Strip(result.stderr);
      if out == [] && err == [] then false
      else !HasFailureMarker(out + "\n" + err)
  }

  /** A pattern without the separator occurs in `a`, the separator and `b` exactly
      when it occurs in `a` or in `b`. */
  lemma ContainsAcross(a: string, b: string, sep: char, m: string)
    requires forall i :: 0 <= i < |m| ==> m[i] != sep
    ensures Contains(a + [sep] + b, m) <==> Contains(a, m) || Contains(b, m)
  {
    if Contains(a + [sep] + b, m) {
      ContainsSplit(a, b, sep, m);
    }
    ContainsJoin(a, b, sep, m);
  }

  lemma ContainsSplit(a: string, b: string, sep: char, m: string)
    requires forall i :: 0 <= i < |m| ==> m[i] != sep
    requires Contains(a + [sep] + b, m)
    ensures Contains(a, m) || Contains(b, m)
  {
    var s := a + [sep] + b;
    forall i | 0 <= i <= |a| < i + |m| <= |s| ensures !StartsWith(s[i..], m) {
      assert s[i..][|a| - i] == sep;
    }
    var i :| 0 <= i <= |s| - |m| && StartsWith(s[i..], m);
    if i + |m| <= |a| {
      assert a[i..][..|m|] == s[i..][..|m|];
      assert StartsWith(a[i..], m);
    } else {
      var j := i - |a| - 1;
      assert b[j..][..|m|] == s[i..][..|m|];
      assert StartsWith(b[j..], m);
    }
  }

  lemma ContainsJoin(a: string, b: string, sep: char, m: string)
    ensures Contains(a, m) || Contains(b, m) ==> Contains(a + [sep] + b, m)
  {
    var s := a + [sep] + b;
    if Contains(a, m) {
      var i :| 0 <= i <= |a| - |m| && StartsWith(a[i..], m);
      assert s[i..][..|m|] == a[i..][..|m|];
      assert StartsWith(s[i..], m);
    } else if Contains(b, m) {
      var j :| 0 <= j <= |b| - |m| && StartsWith(b[j..], m);
      var i := j + |a| + 1;
      assert s[i..][..|m|] == b[j..][..|m|];
      assert StartsWith(s[i..], m);
    }
  }

  lemma MarkersOnOneLine()
    ensures forall k, i :: 0 <= k < |FAILURE_MARKERS| && 0 <= i < |FAILURE_MARKERS[k]| ==> FAILURE_MARKERS[k][i] != '\n'
  {
    var m0 := FAILURE_MARKERS[0];
    var m1 := FAILURE_MARKERS[1];
    assert forall i :: 0 <= i < |m0| ==> m0[i] != '\n';
    assert forall i :: 0 <= i < |m1| ==> m1[i] != '\n';
  }

  /** A run succeeded exactly when it exited 0, said something on stdout or stderr,
      and neither stripped output carries a failure marker: joining the two outputs
      with a newline cannot create a marker, since no marker spans lines. */
  lemma ClassifySuccessMeans(result: CommandResult)
    ensures ClassifySuccess(result) <==>
      result.returncode == 0
      && !(IsBlank(result.stdout) && IsBlank(result.stderr))
      && forall k :: 0 <= k < |FAILURE_MARKERS| ==>
           !Contains(Strip(result.stdout), FAILURE_MARKERS[k]) && !Contains(Strip(result.stderr), FAILURE_MARKERS[k])
  {
    var out := Strip(result.stdout);
    var err := Strip(result.stderr);
    MarkersOnOneLine();
    forall k | 0 <= k < |FAILURE_MARKERS|
      ensures Contains(out + "\n" + err, FAILURE_MARKERS[k]) <==> Contains(out, FAILURE_MARKERS[k]) || Contains(err, FAILURE_MARKERS[k])
    {
      ContainsAcross(out, err, '\n', FAILURE_MARKERS[k]);
    }
  }

  // ---------------------------------------------------------------------------
  // The calls the script makes

  datatype Binary = Sudocode | Opencode

  function BinaryName(b: Binary): string {
    match b
    case Sudocode => "sudocode"
    case Opencode => "opencode"
  }

  /** A PATH lookup (`shutil_which`), the two tracker queries (`sudocode --json ready`
      and `sudocode --json issue show ID`), a status write (`sudocode issue update ID
      --status STATUS`), or the opencode run with its arguments. */
  datatype Event =
    | Which(binary: Binary)
    | ReadyQuery
    | ShowQuery(issueId: string)
    | SetStatus(issueId: string, status: string)
    | RunOpencode(args: seq<string>)

  /** A call that changes something outside the script. */
  predicate IsWrite(e: Event) {
    e.SetStatus? || e.RunOpencode?
  }

  /** The world outside the script: which binaries are on PATH, what the two tracker
      queries decode to (their failures are the messages `run_json` raises), what each
      status write and each opencode run returns, and `repr` for the values `str`
      does not spell out itself. */
  datatype Env = Env(
    onPath: Binary -> bool,
    ready: Result<map<string, Json>>,
    show: string -> Result<map<string, Json>>,
    update: (string, string) -> CommandResult,
    opencode: seq<string> -> CommandResult,
    repr: Json -> string)

  function NotFound(b: Binary): string {
    "Required binary not found on PATH: " + BinaryName(b)
  }

  /** A Python `str` argument that is truthy. */
  predicate Given(s: Option<string>) {
    s.Some? && s.value != ""
  }

  /** `str(value or default)` */
  function OrText(v: Json, default: string, repr: Json -> string): (r: string)
    ensures !Truthy(v) ==> r == default
    ensures v.JStr? && v.s != "" ==> r == v.s
  {
    if Truthy(v) then PyStr(v, repr) else default
  }

  // ---------------------------------------------------------------------------
  // Status updates

  /** The outcome of `update_issue_status` and the commands it ran. */
  datatype Written = Written(status: Result<string>, events: seq<Event>)

  /** A fallback `update_issue_status` will try after a failed primary write. */
  predicate UsableFallback(fallback: Option<string>, status: string) {
    Given(fallback) && fallback.value != status
  }

  /** `update_issue_status`: the primary write, and the fallback write only when the
      primary failed and a fallback different from the primary status was given. */
  function Updated(issueId: string, status: string, fallback: Option<string>, update: (string, string) -> CommandResult): (w: Written)
    ensures 1 <= |w.events| <= 2 && w.events[0] == SetStatus(issueId, status)
    ensures |w.events| == 2 <==> update(issueId, status).returncode != 0 && UsableFallback(fallback, status)
    ensures |w.events| == 2 ==> w.events[1] == SetStatus(issueId, fallback.value)
    ensures w.status == Ok(status) <==> update(issueId, status).returncode == 0
    ensures w.status.Ok? <==>
      update(issueId, status).returncode == 0
      || (UsableFallback(fallback, status) && update(issueId, fallback.value).returncode == 0)
    ensures w.status.Ok? && w.status.value != status ==> |w.events| == 2 && w.status.value == fallback.value
  {
    var primary := update(issueId, status);
    if primary.returncode == 0 then Written(Ok(status), [SetStatus(issueId, status)])
    else if UsableFallback(fallback, status) then
      var second := update(issueId, fallback.value);
      var events := [SetStatus(issueId, status), SetStatus(issueId, fallback.value)];
      if second.returncode == 0 then Written(Ok(fallback.value), events)
      else
        Written(Err("Failed to update status and fallback failed\nprimary=" + status + ": " + Strip(primary.stderr)
                    + "\nfallback=" + fallback.value + ": " + Strip(second.stderr)), events)
    else
      Written(Err("Failed to update issue status to '" + status + "': " + Strip(primary.stderr)),
              [SetStatus(issueId, status)])
  }

  // ---------------------------------------------------------------------------
  // Picking the issue and the message

  /** `pick_ready_issue` on the decoded answer of `sudocode --json ready`. */
  function PickReadyIssue(ready: map<string, Json>, repr: Json -> string): (r: Result<string>)
    ensures r == Err(NO_READY_ISSUES) <==> !(Get(ready, "issues").JList? && Get(ready, "issues").items != [])
    ensures r.Ok? <==>
      Get(ready, "issues").JList? && Get(ready, "issues").items != []
      && Get(ready, "issues").items[0].JObj? && Truthy(Get(Get(ready, "issues").items[0].fields, "id"))
    ensures r.Ok? ==> r.value == PyStr(Get(ready, "issues").items[0].fields["id"], repr)
  {
    var issues := Get(ready, "issues");
    if !issues.JList? || issues.items == [] then Err(NO_READY_ISSUES)
    else
      var first := issues.items[0];
      if !first.JObj? || !Truthy(Get(first.fields, "id")) then Err(BAD_READY_ISSUE)
      else Ok(PyStr(first.fields["id"], repr))
  }

  /** `build_message`: the override when one is given, otherwise the issue's id and
      title, the fixed instructions, and its content at the end. */
  function BuildMessage(issue: map<string, Json>, override: Option<string>, repr: Json -> string): (r: string)
    ensures Given(override) ==> r == override.value
    ensures !Given(override) ==>
      var content := OrText(Get(issue, "content"), "", repr);
      StartsWith(r, "Issue " + OrText(Get(issue, "id"), "", repr) + ": ")
      && |content| <= |r| && r[|r| - |content|..] == content
  {
    if Given(override) then override.value
    else
      var head := "Issue " + OrText(Get(issue, "id"), "", repr) + ": ";
      var content := OrText(Get(issue, "content"), "", repr);
      var r := head + OrText(Get(issue, "title"), "", repr) + "\n\n"
        + "Follow the issue content and complete the work fully.\n"
        + "Update Sudocode state via MCP as you progress.\n\n"
        + content;
      assert r[..|head|] == head;
      assert r[|r| - |content|..] == content;
      r
  }

  /** The arguments `run_opencode` passes to opencode; it normalises the command once
      more and refuses an empty one. */
  function OpencodeArgs(command: string, agent: Option<string>, model: Option<string>, message: string): (r: Result<seq<string>>)
    ensures r.Err? <==> NormalizeCommand(command) == []
    ensures r.Ok? ==>
      && |r.value| == 7 + (if Given(agent) then 2 else 0) + (if Given(model) then 2 else 0)
      && r.value[..6] == ["opencode", "run", "--command", NormalizeCommand(command), "--format", "default"]
      && r.value[|r.value| - 1] == message
  {
    var normalized := NormalizeCommand(command);
    if normalized == [] then Err(EMPTY_COMMAND)
    else
      var base := ["opencode", "run", "--command", normalized, "--format", "default"];
      var withAgent := base + (if Given(agent) then ["--agent", agent.value] else []);
      var withModel := withAgent + (if Given(model) then ["--model", model.value] else []);
      assert (withModel + [message])[..6] == base;
      Ok(withModel + [message])
  }

  // ---------------------------------------------------------------------------
  // The whole run

  /** The command-line options `main` reads. */
  datatype Args = Args(
    issueId: Option<string>,
    command: string,
    message: Option<string>,
    agent: Option<string>,
    model: Option<string>,
    dryRun: bool)

  /** What `main` reports on an execution that got through. */
  datatype Report = Report(issueId: string, selected: string, final: string, success: bool, returnCode: int)

  /** How `main` ended. `Failed` carries the error and what the failure artifacts
      are written with: they are written only when an issue id was known. */
  datatype Ending =
    | EmptyCommand
    | Preview(issueId: string, title: string, currentStatus: string, command: string)
    | Finished(report: Report)
    | Failed(error: string, issueId: string, selected: string)

  function ExitCode(e: Ending): (code: int)
    ensures code in {0, 1}
    ensures code == 0 <==> e.Preview? || (e.Finished? && e.report.success)
  {
    match e
    case EmptyCommand => 1
    case Preview(_, _, _, _) => 0
    case Finished(report) => if report.success then 0 else 1
    case Failed(_, _, _) => 1
  }

  datatype Trace = Trace(ending: Ending, events: seq<Event>)

  /** The lookups before anything is written: both binaries, the issue id (given, or
      the first ready issue) and the issue itself. `issueId` is what `main` knows of
      the id when the lookups stop. */
  datatype Lookup = Lookup(issueId: string, issue: Result<map<string, Json>>, events: seq<Event>)

  function LookedUp(a: Args, env: Env): (l: Lookup)
    ensures forall k :: 0 <= k < |l.events| ==> !IsWrite(l.events[k])
    ensures l.issue.Ok? ==> l.events != [] && l.events[|l.events| - 1] == ShowQuery(l.issueId)
  {
    var found := [Which(Sudocode), Which(Opencode)];
    if !env.onPath(Sudocode) then Lookup("", Err(NotFound(Sudocode)), [Which(Sudocode)])
    else if !env.onPath(Opencode) then Lookup("", Err(NotFound(Opencode)), found)
    else if Given(a.issueId) then
      Lookup(a.issueId.value, env.show(a.issueId.value), found + [ShowQuery(a.issueId.value)])
    else
      var picked := if env.ready.Err? then Err(env.ready.error) else PickReadyIssue(env.ready.value, env.repr);
      if picked.Err? then Lookup("", Err(picked.error), found + [ReadyQuery])
      else Lookup(picked.value, env.show(picked.value), found + [ReadyQuery, ShowQuery(picked.value)])
  }

  function CurrentStatus(issue: map<string, Json>, repr: Json -> string): string {
    OrText(Get(issue, "status"), FAILURE_STATUS, repr)
  }

  function GateError(issueId: string, current: string): string {
    "Issue " + issueId + " has status '" + current + "', expected open/in_progress"
  }

  /** `main` from the looked-up issue on: the dry-run preview, the initial-status gate,
      the claim, and then `Finish`. */
  function Executed(a: Args, env: Env, command: string, issueId: string, issue: map<string, Json>, message: string): Trace {
    var current := CurrentStatus(issue, env.repr);
    if a.dryRun then Trace(Preview(issueId, OrText(Get(issue, "title"), "", env.repr), current, command), [])
    else if current !in VALID_INITIAL_STATUSES then Trace(Failed(GateError(issueId, current), issueId, FAILURE_STATUS), [])
    else
      var claim := if current != IN_PROGRESS then Updated(issueId, IN_PROGRESS, None, env.update) else Written(Ok(current), []);
      if claim.status.Err? then Trace(Failed(claim.status.error, issueId, current), claim.events)
      else
        var rest := Finish(a, env, command, issueId, message, claim.status.value);
        Trace(rest.ending, claim.events + rest.events)
  }

  /** The opencode run on the claimed issue and the final status write, with `open` as
      the fallback of a successful run. */
  function Finish(a: Args, env: Env, command: string, issueId: string, message: string, selected: string): Trace {
    var args := OpencodeArgs(command, a.agent, a.model, message);
    if args.Err? then Trace(Failed(args.error, issueId, selected), [])
    else
      var result := env.opencode(args.value);
      var success := ClassifySuccess(result);
      var final := Updated(issueId, FinalStatusForSuccess(success), if success then Some(FAILURE_STATUS) else None, env.update);
      var events := [RunOpencode(args.value)] + final.events;
      if final.status.Err? then Trace(Failed(final.status.error, issueId, selected), events)
      else Trace(Finished(Report(issueId, selected, final.status.value, success, result.returncode)), events)
  }

  /** `main`: the whole run and every call it makes, in order. */
  function Dispatched(a: Args, env: Env): Trace {
    var command := NormalizeCommand(a.command);
    if command == [] then Trace(EmptyCommand, [])
    else
      var look := LookedUp(a, env);
      if look.issue.Err? then Trace(Failed(look.issue.error, look.issueId, FAILURE_STATUS), look.events)
      else
        var rest := Executed(a, env, command, look.issueId, look.issue.value, BuildMessage(look.issue.value, a.message, env.repr));
        Trace(rest.ending, look.events + rest.events)
  }

  // ---------------------------------------------------------------------------
  // The script's guards, stated over the whole run

  predicate Writes(events: seq<Event>) {
    exists k :: 0 <= k < |events| && IsWrite(events[k])
  }

  /** An empty normalised command exits 1 before any lookup; any other command at
      least looks for the tracker binary first. */
  lemma EmptyCommandExitsFirst(a: Args, env: Env)
    ensures var d := Dispatched(a, env);
      && (d.events == [] <==> NormalizeCommand(a.command) == [])
      && (NormalizeCommand(a.command) == [] ==> d.ending == EmptyCommand && ExitCode(d.ending) == 1)
      && (d.events != [] ==> d.events[0] == Which(Sudocode))
  {
  }

  /** Nothing is written unless the lookups found the issue, it is not a dry run and
      the issue's status is `open` or `in_progress`. */
  lemma WritesNeedValidStatus(a: Args, env: Env)
    ensures var d := Dispatched(a, env); var l := LookedUp(a, env);
      Writes(d.events) ==>
        && NormalizeCommand(a.command) != [] && l.issue.Ok? && !a.dryRun
        && CurrentStatus(l.issue.value, env.repr) in VALID_INITIAL_STATUSES
  {
    var d := Dispatched(a, env);
    var l := LookedUp(a, env);
    if Writes(d.events) {
      var k :| 0 <= k < |d.events| && IsWrite(d.events[k]);
      assert NormalizeCommand(a.command) != [];
      assert l.issue.Ok?;
      var rest := Executed(a, env, NormalizeCommand(a.command), l.issueId, l.issue.value, BuildMessage(l.issue.value, a.message, env.repr));
      assert d.events == l.events + rest.events;
      assert k >= |l.events|;
      assert rest.events != [];
    }
  }

  /** The gate: a status outside `open`/`in_progress` fails the run with exit 1 before
      anything is written, and the failure artifacts still carry the initial selected
      status `open`: the selected status takes the issue's own only after the gate. */
  lemma GateRejectsOtherStatus(a: Args, env: Env, command: string, issueId: string, issue: map<string, Json>, message: string)
    requires !a.dryRun && CurrentStatus(issue, env.repr) !in VALID_INITIAL_STATUSES
    ensures var t := Executed(a, env, command, issueId, issue, message); var current := CurrentStatus(issue, env.repr);
      t.events == [] && t.ending == Failed(GateError(issueId, current), issueId, FAILURE_STATUS) && ExitCode(t.ending) == 1
  {
  }

  /** The writes `Finish` makes: the opencode run first, then only final statuses. */
  lemma FinishWrites(a: Args, env: Env, command: string, issueId: string, message: string, selected: string)
    ensures var t := Finish(a, env, command, issueId, message, selected);
      forall k :: 0 <= k < |t.events| ==>
        (k == 0 <==> t.events[k].RunOpencode?)
        && (t.events[k].SetStatus? ==> t.events[k].status in {SUCCESS_STATUS, FAILURE_STATUS})
  {
    var args := OpencodeArgs(command, a.agent, a.model, message);
    if args.Ok? {
      var success := ClassifySuccess(env.opencode(args.value));
      var final := Updated(issueId, FinalStatusForSuccess(success), if success then Some(FAILURE_STATUS) else None, env.update);
      assert Finish(a, env, command, issueId, message, selected).events == [RunOpencode(args.value)] + final.events;
    }
  }

  /** Past the gate, the claim writes `in_progress` exactly when the issue is still
      `open`, and then it is the first call; the later writes are final statuses. */
  lemma ClaimOnlyFromOpen(a: Args, env: Env, command: string, issueId: string, issue: map<string, Json>, message: string)
    requires !a.dryRun && CurrentStatus(issue, env.repr) in VALID_INITIAL_STATUSES
    ensures var t := Executed(a, env, command, issueId, issue, message);
      && ((exists k :: 0 <= k < |t.events| && t.events[k] == SetStatus(issueId, IN_PROGRESS))
          <==> CurrentStatus(issue, env.repr) == FAILURE_STATUS)
      && (CurrentStatus(issue, env.repr) == FAILURE_STATUS ==> t.events[0] == SetStatus(issueId, IN_PROGRESS))
  {
    var current := CurrentStatus(issue, env.repr);
    var t := Executed(a, env, command, issueId, issue, message);
    if current == FAILURE_STATUS {
      assert t.events[0] == SetStatus(issueId, IN_PROGRESS);
    } else {
      assert t == Finish(a, env, command, issueId, message, current);
      FinishWrites(a, env, command, issueId, message, current);
    }
  }

  /** opencode only runs on a claimed issue: one already `in_progress`, or one whose
      `in_progress` write just succeeded as the first call. */
  lemma OpencodeRunsOnClaimedIssue(a: Args, env: Env, command: string, issueId: string, issue: map<string, Json>, message: string, k: nat)
    requires var t := Executed(a, env, command, issueId, issue, message); k < |t.events| && t.events[k].RunOpencode?
    ensures !a.dryRun
    ensures var current := CurrentStatus(issue, env.repr);
      || current == IN_PROGRESS
      || (&& current == FAILURE_STATUS && k == 1
          && Executed(a, env, command, issueId, issue, message).events[0] == SetStatus(issueId, IN_PROGRESS)
          && env.update(issueId, IN_PROGRESS).returncode == 0)
  {
    var current := CurrentStatus(issue, env.repr);
    var t := Executed(a, env, command, issueId, issue, message);
    if current != IN_PROGRESS {
      var claim := Updated(issueId, IN_PROGRESS, None, env.update);
      var rest := Finish(a, env, command, issueId, message, IN_PROGRESS);
      assert t.events == claim.events + rest.events;
      FinishWrites(a, env, command, issueId, message, IN_PROGRESS);
      assert k >= |claim.events|;
    }
  }

  /** The final status: a successful run ends `needs_review`, or `open` when that write
      failed and the fallback went through; a failed run ends `open`. */
  lemma FinalStatusMeans(a: Args, env: Env, command: string, issueId: string, message: string, selected: string)
    ensures var t := Finish(a, env, command, issueId, message, selected);
      t.ending.Finished? ==>
        var r := t.ending.report;
        && (r.success ==> r.final in {SUCCESS_STATUS, FAILURE_STATUS})
        && (r.final == FAILURE_STATUS && r.success ==> env.update(issueId, SUCCESS_STATUS).returncode != 0)
        && (!r.success ==> r.final == FAILURE_STATUS && ExitCode(t.ending) == 1)
  {
    var args := OpencodeArgs(command, a.agent, a.model, message);
    if args.Ok? {
      var success := ClassifySuccess(env.opencode(args.value));
      var final := Updated(issueId, FinalStatusForSuccess(success), if success then Some(FAILURE_STATUS) else None, env.update);
      assert Finish(a, env, command, issueId, message, selected).ending.Finished? ==> final.status.Ok?;
    }
  }

  // ---------------------------------------------------------------------------
  // The script as it runs, step by step

  lemma AppendAssoc(a: seq<Event>, b: seq<Event>, c: seq<Event>)
    ensures a + b + c == a + (b + c)
  {
  }

  /** The process the script talks to: every PATH lookup, tracker query and command
      goes through it and is appended to `events`. */
  class Shell {
    const env: Env
    var events: seq<Event>

    constructor(env: Env)
      ensures this.env == env && events == []
    {
      this.env := env;
      events := [];
    }

    /** `ensure_binary_exists`, through `shutil_which` */
    method Which(b: Binary) returns (found: bool)
      modifies this
      ensures found == env.onPath(b) && events == old(events) + [Event.Which(b)]
    {
      found := env.onPath(b);
      events := events + [Event.Which(b)];
    }

    /** `run_json(["sudocode", "--json", "ready"])` */
    method Ready() returns (r: Result<map<string, Json>>)
      modifies this
      ensures r == env.ready && events == old(events) + [ReadyQuery]
    {
      r := env.ready;
      events := events + [ReadyQuery];
    }

    /** `show_issue` */
    method Show(issueId: string) returns (r: Result<map<string, Json>>)
      modifies this
      ensures r == env.show(issueId) && events == old(events) + [ShowQuery(issueId)]
    {
      r := env.show(issueId);
      events := events + [ShowQuery(issueId)];
    }

    /** `run_command` of one status write */
    method SetStatus(issueId: string, status: string) returns (r: CommandResult)
      modifies this
      ensures r == env.update(issueId, status) && events == old(events) + [Event.SetStatus(issueId, status)]
    {
      r := env.update(issueId, status);
      events := events + [Event.SetStatus(issueId, status)];
    }

    /** `run_command` of the opencode run */
    method RunOpencode(args: seq<string>) returns (r: CommandResult)
      modifies this
      ensures r == env.opencode(args) && events == old(events) + [Event.RunOpencode(args)]
    {
      r := env.opencode(args);
      events := events + [Event.RunOpencode(args)];
    }

    /** `update_issue_status`: the primary write, then the fallback write if the
        primary failed and a distinct fallback was given. */
    method UpdateIssueStatus(issueId: string, status: string, fallback: Option<string>) returns (r: Result<string>)
      modifies this
      ensures var w := Updated(issueId, status, fallback, env.update);
        r == w.status && events == old(events) + w.events
    {
      var result := SetStatus(issueId, status);
      if result.returncode == 0 {
        return Ok(status);
      }
      if Given(fallback) && fallback.value != status {
        var second := SetStatus(issueId, fallback.value);
        if second.returncode == 0 {
          return Ok(fallback.value);
        }
        return Err("Failed to update status and fallback failed\nprimary=" + status + ": " + Strip(result.stderr)
                   + "\nfallback=" + fallback.value + ": " + Strip(second.stderr));
      }
      r := Err("Failed to update issue status to '" + status + "': " + Strip(result.stderr));
    }

    /** Both binary checks, then `args.issue_id or pick_ready_issue(...)` and
        `show_issue`. */
    method LookUp(a: Args) returns (issueId: string, issue: Result<map<string, Json>>)
      modifies this
      ensures var l := LookedUp(a, env);
        issueId == l.issueId && issue == l.issue && events == old(events) + l.events
    {
      var found := Which(Sudocode);
      if !found {
        return "", Err(NotFound(Sudocode));
      }
      found := Which(Opencode);
      if !found {
        return "", Err(NotFound(Opencode));
      }
      if Given(a.issueId) {
        issueId := a.issueId.value;
      } else {
        var ready := Ready();
        if ready.Err? {
          return "", Err(ready.error);
        }
        var picked := PickReadyIssue(ready.value, env.repr);
        if picked.Err? {
          return "", Err(picked.error);
        }
        issueId := picked.value;
      }
      issue := Show(issueId);
    }

    /** `main` after the lookups, up to the claim: `selected_status` starts as the
        current status and becomes what the claim wrote. */
    method Execute(a: Args, command: string, issueId: string, issue: map<string, Json>, message: string) returns (ending: Ending)
      modifies this
      ensures var t := Executed(a, env, command, issueId, issue, message);
        ending == t.ending && events == old(events) + t.events
    {
      var current := CurrentStatus(issue, env.repr);
      if a.dryRun {
        return Preview(issueId, OrText(Get(issue, "title"), "", env.repr), current, command);
      }
      if current !in VALID_INITIAL_STATUSES {
        return Failed(GateError(issueId, current), issueId, FAILURE_STATUS);
      }
      var selected := current;
      ghost var before := events;
      if current != IN_PROGRESS {
        var claimed := UpdateIssueStatus(issueId, IN_PROGRESS, None);
        if claimed.Err? {
          return Failed(claimed.error, issueId, selected);
        }
        selected := claimed.value;
      }
      ghost var claim := if current != IN_PROGRESS then Updated(issueId, IN_PROGRESS, None, env.update) else Written(Ok(current), []);
      assert events == before + claim.events;
      ghost var middle := events;
      ending := Complete(a, command, issueId, message, selected);
      ghost var rest := Finish(a, env, command, issueId, message, selected);
      AppendAssoc(before, claim.events, rest.events);
    }

    /** `run_opencode`, `classify_success` and the final write: `final_status` starts
        as the status for the outcome and becomes what the write went through with. */
    method Complete(a: Args, command: string, issueId: string, message: string, selected: string) returns (ending: Ending)
      modifies this
      ensures var t := Finish(a, env, command, issueId, message, selected);
        ending == t.ending && events == old(events) + t.events
    {
      var args := OpencodeArgs(command, a.agent, a.model, message);
      if args.Err? {
        return Failed(args.error, issueId, selected);
      }
      ghost var before := events;
      var result := RunOpencode(args.value);
      var success := ClassifySuccess(result);
      var final := FinalStatusForSuccess(success);
      var written := UpdateIssueStatus(issueId, final, if success then Some(FAILURE_STATUS) else None);
      AppendAssoc(before, [Event.RunOpencode(args.value)], Updated(issueId, final, if success then Some(FAILURE_STATUS) else None, env.update).events);
      if written.Err? {
        return Failed(written.error, issueId, selected);
      }
      final := written.value;
      ending := Finished(Report(issueId, selected, final, success, result.returncode));
    }

    /** `main`, returning its exit code. */
    method Dispatch(a: Args) returns (exit: int, ending: Ending)
      modifies this
      ensures var d := Dispatched(a, env);
        ending == d.ending && exit == ExitCode(d.ending) && events == old(events) + d.events
    {
      var command := NormalizeCommand(a.command);
      if command == [] {
        return 1, EmptyCommand;
      }
      ghost var before := events;
      var issueId, issue := LookUp(a);
      ghost var l := LookedUp(a, env);
      if issue.Err? {
        ending := Failed(issue.error, issueId, FAILURE_STATUS);
      } else {
        ghost var middle := events;
        var message := BuildMessage(issue.value, a.message, env.repr);
        ending := Execute(a, command, issueId, issue.value, message);
        ghost var rest := Executed(a, env, command, issueId, issue.value, message);
        AppendAssoc(before, l.events, rest.events);
      }
      exit := ExitCode(ending);
    }
  }
}

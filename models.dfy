/** The value types shared by the orchestrator's modules: the issue a session works on,
    the implementer's and reviewers' results and a session's outcome. */
module Models {
  import opened Common

  /** The tracked issue a session works on. */
  datatype IssueContext = IssueContext(
    issueId: string, manifestId: string, taskId: string, gateId: string,
    epicId: string, title: string, dependsOn: string, dodChecklistFull: string)

  /** A `datetime`: its instant in seconds and its `isoformat()` text with `+00:00`
      written as `Z`. */
  datatype Stamp = Stamp(at: int, iso: string)

  datatype Verification = Verification(command: string, output: string, exitCode: int, producedAt: Stamp)

  datatype ImplementerResult = ImplementerResult(verification: Option<Verification>, codeChangedAt: int, notes: string)

  datatype ReviewResult = ReviewResult(passed: bool, failedItems: seq<string>, fixList: seq<string>, notes: string)

  datatype FinalState = NeedsReview | Overflow | VerifyFailed

  datatype SessionOutcome = SessionOutcome(finalState: FinalState, fixIssueId: Option<string>)

  /** A Python object handed over by the tracker, as far as the runner tells values
      apart: `Instant` is a `datetime` (its instant in seconds and its `str()`), `Dict` a
      dict and `Obj` any other object with attributes (each with its `str()`), `Other`
      anything else, by its `str()`. */
  datatype Attr =
    | Null
    | Bool(b: bool)
    | Int(i: int)
    | Text(s: string)
    | Instant(at: int, text: string)
    | Dict(fields: map<string, Attr>, text: string)
    | Obj(attrs: map<string, Attr>, text: string)
    | Other(text: string)

  /** `str(a)` */
  function PyStr(a: Attr): string {
    match a
    case Null => "None"
    case Bool(b) => if b then "True" else "False"
    case Int(i) => IntToString(i)
    case Text(s) => s
    case Instant(_, text) => text
    case Dict(_, text) => text
    case Obj(_, text) => text
    case Other(text) => text
  }
}

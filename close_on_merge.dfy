/** The entry points that turn a GitHub `pull_request` event into a merge-close
    payload and hand it to the closer: the canonical `Sudocode-Issue:` line of the PR
    body, payload construction and validation, dispatch and the dry-run preview. */
module CloseOnMerge {
  import opened Common
  import opened MergeCloser

  // ---------------------------------------------------------------------------
  // The canonical issue line: `^Sudocode-Issue:\s*(i-[a-z0-9]+)\s*$` with MULTILINE

  const FIELD := "Sudocode-Issue:"
  const MISSING_ISSUE_LINE := "missing canonical Sudocode-Issue line in PR body"
  const MULTIPLE_ISSUE_LINES := "multiple Sudocode-Issue lines found in PR body"

  predicate IsIdChar(c: char) { IsAsciiLower(c) || IsAsciiDigit(c) }

  /** `i-` followed by at least one lower-case letter or digit. */
  predicate IsCanonicalId(x: string) {
    |x| >= 3 && x[0] == 'i' && x[1] == '-' && forall i :: 2 <= i < |x| ==> IsIdChar(x[i])
  }

  /** `^` under MULTILINE: the start of the text or just after a line feed. */
  predicate LineStart(s: string, pos: nat)
    requires pos <= |s|
  {
    pos == 0 || s[pos - 1] == '\n'
  }

  predicate AllSpace(s: string, lo: nat, hi: nat)
    requires lo <= hi <= |s|
  {
    forall i :: lo <= i < hi ==> IsSpace(s[i])
  }

  /** Where a greedy `\s*` starting at `i` stops. */
  function SpaceRunEnd(s: string, i: nat): (j: nat)
    requires i <= |s|
    ensures i <= j <= |s| && AllSpace(s, i, j) && (j == |s| || !IsSpace(s[j]))
    decreases |s| - i
  {
    if i == |s| || !IsSpace(s[i]) then i else SpaceRunEnd(s, i + 1)
  }

  /** Where a greedy `[a-z0-9]*` starting at `i` stops. */
  function IdRunEnd(s: string, i: nat): (k: nat)
    requires i <= |s|
    ensures i <= k <= |s| && (k == |s| || !IsIdChar(s[k]))
    ensures forall x :: i <= x < k ==> IsIdChar(s[x])
    decreases |s| - i
  {
    if i == |s| || !IsIdChar(s[i]) then i else IdRunEnd(s, i + 1)
  }

  /** The last line feed in `s[lo..hi]`, where backtracking `\s*` lets `$` match. */
  function LastNewline(s: string, lo: nat, hi: nat): (r: Option<nat>)
    requires lo <= hi <= |s|
    ensures r.Some? ==> lo <= r.value < hi && s[r.value] == '\n'
    decreases hi - lo
  {
    if hi == lo then None
    else if s[hi - 1] == '\n' then Some(hi - 1)
    else LastNewline(s, lo, hi - 1)
  }

  /** No line feed lies after the one found, and none at all when nothing is found. */
  lemma {:induction false} LastNewlineIsLast(s: string, lo: nat, hi: nat)
    requires lo <= hi <= |s|
    ensures var r := LastNewline(s, lo, hi);
      (r.Some? ==> forall x :: r.value < x < hi ==> s[x] != '\n')
      && (r.None? ==> forall x :: lo <= x < hi ==> s[x] != '\n')
    decreases hi - lo
  {
    if hi != lo && s[hi - 1] != '\n' {
      LastNewlineIsLast(s, lo, hi - 1);
    }
  }

  /** Where the trailing `\s*$` of a match starting its whitespace at `k` ends: the
      greedy run reaching the end of the text, or else the engine backtracks to the
      last line feed inside the run; neither means no match. */
  function LineEnd(s: string, k: nat): (r: Option<nat>)
    requires k <= |s|
    ensures r.Some? ==> k <= r.value <= |s| && AllSpace(s, k, r.value)
    ensures r.Some? ==> r.value == |s| || s[r.value] == '\n'
  {
    var m := SpaceRunEnd(s, k);
    if m == |s| then Some(m) else LastNewline(s, k, m)
  }

  /** Whitespace up to the end of the text or of the line is always found. */
  lemma LineEndFound(s: string, k: nat, e: nat)
    requires k <= e <= |s| && AllSpace(s, k, e) && (e == |s| || s[e] == '\n')
    ensures LineEnd(s, k).Some?
  {
    var m := SpaceRunEnd(s, k);
    if m != |s| {
      assert e < m;
      LastNewlineIsLast(s, k, m);
    }
  }

  /** A line starting with the field name, where the pattern can begin. */
  predicate FieldLineAt(s: string, pos: nat)
    requires pos <= |s|
  {
    LineStart(s, pos) && StartsWith(s[pos..], FIELD)
  }

  /** A match of the pattern: the captured id and where the match ends. */
  datatype Match = Match(id: string, end: nat)

  /** The pattern tried at one position, following the regex engine's greedy
      choices: the `\s*` after the colon may span lines; the id run is maximal; the
      final `\s*$` ends as `LineEnd` says. */
  function MatchAt(s: string, pos: nat): (r: Option<Match>)
    requires pos <= |s|
    ensures r.Some? ==> pos < r.value.end <= |s| && IsCanonicalId(r.value.id)
  {
    if !FieldLineAt(s, pos) then None
    else
      var j := SpaceRunEnd(s, pos + |FIELD|);
      if !(j + 2 <= |s| && s[j] == 'i' && s[j + 1] == '-') then None
      else
        var k := IdRunEnd(s, j + 2);
        if k == j + 2 then None
        else
          match LineEnd(s, k)
          case None => None
          case Some(q) => Some(Match(s[j..k], q))
  }

  /** The pattern read declaratively: at a line start, the field name, whitespace
      up to `j`, the canonical id, whitespace up to `e`, then the end of the text or of
      the line. */
  ghost predicate LineMatches(s: string, pos: nat, id: string)
    requires pos <= |s|
  {
    exists j, e :: LineWitness(s, pos, id, j, e)
  }

  predicate LineWitness(s: string, pos: nat, id: string, j: nat, e: nat)
    requires pos <= |s|
  {
    LineStart(s, pos) && StartsWith(s[pos..], FIELD) && IsCanonicalId(id)
    && pos + |FIELD| <= j && j + |id| <= e <= |s|
    && AllSpace(s, pos + |FIELD|, j) && s[j..j + |id|] == id && AllSpace(s, j + |id|, e)
    && (e == |s| || s[e] == '\n')
  }

  /** `MatchAt` finds only what the pattern describes. */
  lemma MatchAtSound(s: string, pos: nat)
    requires pos <= |s| && MatchAt(s, pos).Some?
    ensures LineMatches(s, pos, MatchAt(s, pos).value.id)
  {
    var j := SpaceRunEnd(s, pos + |FIELD|);
    var k := IdRunEnd(s, j + 2);
    var id := MatchAt(s, pos).value.id;
    assert id == s[j..k];
    var e := MatchAt(s, pos).value.end;
    assert AllSpace(s, k, e);
    assert s[j..j + |id|] == id;
    assert LineWitness(s, pos, id, j, e);
  }

  /** ... and finds every id the pattern describes, the same one: a line matching the
      pattern is never missed, and the captured id is the one on that line. */
  lemma {:induction false} MatchAtComplete(s: string, pos: nat, id: string)
    requires pos <= |s| && LineMatches(s, pos, id)
    ensures MatchAt(s, pos).Some? && MatchAt(s, pos).value.id == id
  {
    var j: nat, e: nat :| LineWitness(s, pos, id, j, e);
    var j' := SpaceRunEnd(s, pos + |FIELD|);
    SpaceRunStops(s, pos + |FIELD|, j);
    assert j' == j;
    assert s[j] == id[0] && s[j + 1] == id[1];
    var k := IdRunEnd(s, j + 2);
    IdRunStops(s, j, id, e);
    assert k == j + |id|;
    assert s[j..k] == id;
    LineEndFound(s, k, e);
    MatchAtFrom(s, pos, j, k);
  }

  /** How `MatchAt` reads once the id and its run are located. */
  lemma MatchAtFrom(s: string, pos: nat, j: nat, k: nat)
    requires pos <= |s| && FieldLineAt(s, pos) && j == SpaceRunEnd(s, pos + |FIELD|)
    requires j + 2 <= |s| && s[j] == 'i' && s[j + 1] == '-'
    requires k == IdRunEnd(s, j + 2) && k != j + 2 && LineEnd(s, k).Some?
    ensures MatchAt(s, pos) == Some(Match(s[j..k], LineEnd(s, k).value))
  {
  }

  /** A whitespace run followed by a non-space ends there. */
  lemma SpaceRunStops(s: string, i: nat, j: nat)
    requires i <= j < |s| && AllSpace(s, i, j) && !IsSpace(s[j])
    ensures SpaceRunEnd(s, i) == j
    decreases j - i
  {
    if i < j { SpaceRunStops(s, i + 1, j); }
  }

  /** The id run of a canonical id ends where the id does. */
  lemma IdRunStops(s: string, j: nat, id: string, e: nat)
    requires IsCanonicalId(id) && j + |id| <= e <= |s| && s[j..j + |id|] == id
    requires AllSpace(s, j + |id|, e) && (e == |s| || s[e] == '\n')
    ensures IdRunEnd(s, j + 2) == j + |id|
  {
    forall x | j + 2 <= x < j + |id| ensures IsIdChar(s[x]) {
      assert s[x] == id[x - j];
    }
    IdRunFrom(s, j + 2, j + |id|);
  }

  lemma {:induction false} IdRunFrom(s: string, i: nat, k: nat)
    requires i <= k <= |s| && (forall x :: i <= x < k ==> IsIdChar(s[x]))
    requires k == |s| || !IsIdChar(s[k])
    ensures IdRunEnd(s, i) == k
    decreases k - i
  {
    if i < k { IdRunFrom(s, i + 1, k); }
  }

  /** `findall`: scan left to right, resuming after each match. */
  function FindAll(s: string, from: nat): (r: seq<string>)
    requires from <= |s|
    ensures forall i :: 0 <= i < |r| ==> IsCanonicalId(r[i])
    decreases |s| - from
  {
    if from == |s| then []
    else
      match MatchAt(s, from)
      case Some(m) => [m.id] + FindAll(s, m.end)
      case None => FindAll(s, from + 1)
  }

  /** `extract_sudocode_issue_id` */
  function ExtractIssueId(body: string): (r: Result<string>)
    ensures r.Ok? ==> IsCanonicalId(r.value)
    ensures r == Err(MISSING_ISSUE_LINE) <==> FindAll(body, 0) == []
    ensures r == Err(MULTIPLE_ISSUE_LINES) <==> |FindAll(body, 0)| >= 2
  {
    var found := FindAll(body, 0);
    if |found| == 1 then Ok(found[0])
    else if found == [] then Err(MISSING_ISSUE_LINE)
    else Err(MULTIPLE_ISSUE_LINES)
  }

  /** A line `Sudocode-Issue: <id>` at `pos`, ending the text or followed by a line
      feed and a non-blank next line, matches with exactly that id and ends there. */
  lemma CanonicalLineMatch(s: string, pos: nat, id: string, e: nat)
    requires pos <= e <= |s| && LineStart(s, pos) && IsCanonicalId(id)
    requires s[pos..e] == FIELD + " " + id
    requires e == |s| || (s[e] == '\n' && e + 1 < |s| && !IsSpace(s[e + 1]))
    ensures MatchAt(s, pos) == Some(Match(id, e))
    ensures FindAll(s, pos) == [id] + FindAll(s, e)
  {
    CanonicalLineMatchAt(s, pos, id, e);
    assert pos < |s|;
  }

  lemma CanonicalLineMatchAt(s: string, pos: nat, id: string, e: nat)
    requires pos <= e <= |s| && LineStart(s, pos) && IsCanonicalId(id)
    requires s[pos..e] == FIELD + " " + id
    requires e == |s| || (s[e] == '\n' && e + 1 < |s| && !IsSpace(s[e + 1]))
    ensures MatchAt(s, pos) == Some(Match(id, e))
  {
    var j := pos + |FIELD| + 1;
    CanonicalLineParts(s, pos, id, e);
    LineEndAtBreak(s, e);
    IdRunFrom(s, j + 2, e);
    MatchAtFrom(s, pos, j, e);
  }

  /** The field name, one space and the id of a canonical line, position by position. */
  lemma CanonicalLineParts(s: string, pos: nat, id: string, e: nat)
    requires pos <= e <= |s| && LineStart(s, pos) && IsCanonicalId(id)
    requires s[pos..e] == FIELD + " " + id
    ensures e == pos + |FIELD| + 1 + |id| && FieldLineAt(s, pos)
    ensures SpaceRunEnd(s, pos + |FIELD|) == pos + |FIELD| + 1
    ensures s[pos + |FIELD| + 1..e] == id
    ensures forall x :: pos + |FIELD| + 3 <= x < e ==> IsIdChar(s[x])
  {
    var j := pos + |FIELD| + 1;
    LineParts(s[pos..e], FIELD, id);
    assert s[pos..][..|FIELD|] == s[pos..e][..|FIELD|];
    assert s[pos + |FIELD|] == s[pos..e][|FIELD|];
    assert s[j] == id[0];
    SpaceRunStops(s, pos + |FIELD|, j);
    assert s[j..e] == s[pos..e][|FIELD| + 1..];
    forall x | j + 2 <= x < e ensures IsIdChar(s[x]) {
      assert s[x] == id[x - j];
    }
  }

  /** Whitespace after the id ends the match at the end of the text, or at a line feed
      followed by a non-blank character. */
  lemma LineEndAtBreak(s: string, e: nat)
    requires e <= |s| && (e == |s| || (s[e] == '\n' && e + 1 < |s| && !IsSpace(s[e + 1])))
    ensures LineEnd(s, e) == Some(e)
  {
    if e < |s| {
      SpaceRunStops(s, e, e + 1);
      assert LastNewline(s, e, e + 1) == Some(e);
    }
  }

  /** The pieces of `f + " " + id`. */
  lemma LineParts(line: string, f: string, id: string)
    requires line == f + " " + id
    ensures |line| == |f| + 1 + |id| && line[..|f|] == f && line[|f|] == ' ' && line[|f| + 1..] == id
    ensures f != [] ==> line[0] == f[0]
  {
  }

  /** The pieces of `l1 + "\n" + l2`. */
  lemma LinesParts(s: string, l1: string, l2: string)
    requires s == l1 + "\n" + l2
    ensures |s| == |l1| + 1 + |l2| && s[..|l1|] == l1 && s[|l1|] == '\n' && s[|l1| + 1..] == l2
  {
  }

  /** A body that is just the canonical line yields its id. */
  lemma CanonicalLineExtracts(id: string)
    requires IsCanonicalId(id)
    ensures ExtractIssueId(FIELD + " " + id) == Ok(id)
  {
    var s := FIELD + " " + id;
    assert s[0..|s|] == s;
    CanonicalLineMatch(s, 0, id, |s|);
  }

  /** Two canonical lines make the body ambiguous: a body whose first line is
      `Sudocode-Issue: <a>` and whose second line is `Sudocode-Issue: <b>`. */
  lemma TwoLinesAreMultiple(s: string, n: nat, a: string, b: string)
    requires IsCanonicalId(a) && IsCanonicalId(b) && 0 < n < |s| && s[n] == '\n'
    requires s[0..n] == FIELD + " " + a && s[n + 1..|s|] == FIELD + " " + b
    ensures ExtractIssueId(s) == Err(MULTIPLE_ISSUE_LINES)
  {
    assert !IsSpace(s[n + 1]) by {
      LineParts(s[n + 1..|s|], FIELD, b);
      FieldStart();
      assert s[n + 1] == s[n + 1..|s|][0];
    }
    assert s[n - 1] != '\n' by {
      LineParts(s[0..n], FIELD, a);
      assert s[n - 1] == s[0..n][n - 1] == a[|a| - 1];
    }
    assert MatchAt(s, 0) == Some(Match(a, n)) by {
      CanonicalLineMatch(s, 0, a, n);
    }
    assert MatchAt(s, n + 1) == Some(Match(b, |s|)) by {
      CanonicalLineMatch(s, n + 1, b, |s|);
    }
    TwoMatchesFound(s, n, a, b);
  }

  /** Positions where no line starts with the field name contribute nothing. */
  lemma {:induction false} NoFieldLineSkips(s: string, from: nat, to: nat)
    requires from <= to <= |s|
    requires forall q :: from <= q < to ==> !FieldLineAt(s, q)
    ensures FindAll(s, from) == FindAll(s, to)
    decreases |s| - from
  {
    if from < to {
      NoFieldLineSkips(s, from + 1, to);
    }
  }

  /** A body with one line carrying the field, in canonical form, yields that line's
      id, whatever surrounds it (`"Intro\nSudocode-Issue: i-ab12\nFooter"`). */
  lemma OneFieldLineExtracts(s: string, p: nat, e: nat, id: string)
    requires p <= e <= |s| && LineStart(s, p) && IsCanonicalId(id) && s[p..e] == FIELD + " " + id
    requires e == |s| || (s[e] == '\n' && e + 1 < |s| && !IsSpace(s[e + 1]))
    requires forall q :: 0 <= q <= |s| && q != p ==> !FieldLineAt(s, q)
    ensures ExtractIssueId(s) == Ok(id)
  {
    NoFieldLineSkips(s, 0, p);
    assert FindAll(s, p) == [id] + FindAll(s, e) by {
      CanonicalLineMatch(s, p, id, e);
    }
    NoFieldLineSkips(s, e, |s|);
  }

  lemma FieldStart()
    ensures FIELD != [] && !IsSpace(FIELD[0])
  {
  }

  /** A match ending at a line feed, then a match over the whole next line: the scan
      finds exactly those two ids, in order. */
  lemma TwoMatchesFound(s: string, n: nat, a: string, b: string)
    requires 0 < n < |s| && s[n - 1] != '\n'
    requires MatchAt(s, 0) == Some(Match(a, n)) && MatchAt(s, n + 1) == Some(Match(b, |s|))
    ensures FindAll(s, 0) == [a, b]
  {
    assert !LineStart(s, n);
    assert FindAll(s, n) == FindAll(s, n + 1);
  }

  /** An id written in capitals is not canonical: a single such line counts as missing. */
  lemma UppercaseIdIsMissing(rest: string)
    requires rest != [] && IsAsciiUpper(rest[0]) && forall i :: 0 <= i < |rest| ==> rest[i] != '\n'
    ensures ExtractIssueId(FIELD + " i-" + rest) == Err(MISSING_ISSUE_LINE)
  {
    var s := FIELD + " i-" + rest;
    assert s[..|FIELD|] == FIELD;
    assert s[0..] == s;
    SpaceRunStops(s, |FIELD|, |FIELD| + 1);
    assert s[|FIELD| + 3] == rest[0];
    assert IdRunEnd(s, |FIELD| + 3) == |FIELD| + 3;
    assert MatchAt(s, 0).None?;
    forall i | 0 <= i < |s| ensures s[i] != '\n' {
      if i >= |FIELD| + 3 { assert s[i] == rest[i - |FIELD| - 3]; }
    }
    NoLineStartNoMatch(s, 1);
  }

  /** Past the start of a text without line feeds nothing matches. */
  lemma {:induction false} NoLineStartNoMatch(s: string, from: nat)
    requires 0 < from <= |s| && forall i :: 0 <= i < |s| ==> s[i] != '\n'
    ensures FindAll(s, from) == []
    decreases |s| - from
  {
    if from < |s| {
      assert !LineStart(s, from);
      NoLineStartNoMatch(s, from + 1);
    }
  }

  // ---------------------------------------------------------------------------
  // Payloads from events

  /** `_as_mapping` */
  function AsMapping(v: Json, fieldName: string): (r: Result<map<string, Json>>)
    ensures r.Ok? <==> v.JObj?
    ensures r.Ok? ==> r.value == v.fields
    ensures r.Err? ==> r.error == fieldName + " must be an object"
  {
    if v.JObj? then Ok(v.fields) else Err(fieldName + " must be an object")
  }

  /** `_required_str`: the value itself, not stripped, when it is a non-blank string. */
  function RequiredStr(m: map<string, Json>, key: string, fieldName: string): (r: Result<string>)
    ensures r.Ok? <==> IsNonBlankStr(Get(m, key))
    ensures r.Ok? ==> JStr(r.value) == Get(m, key)
    ensures r.Err? ==> r.error == fieldName + " must be a non-empty string"
  {
    var v := Get(m, key);
    if v.JStr? && !IsBlank(v.s) then Ok(v.s) else Err(fieldName + " must be a non-empty string")
  }

  /** The PR body, or "" when it is missing or not a string. */
  function BodyOf(pr: map<string, Json>): string {
    var b := Get(pr, "body");
    if b.JStr? then b.s else ""
  }

  /** `build_payload_from_event`: the checks run in source order, and the first
      failing one supplies the message. */
  function BuildPayloadFromEvent(event: map<string, Json>, source: Source): (r: Result<Payload>)
  {
    match AsMapping(Get(event, "pull_request"), "pull_request")
    case Err(e) => Err(e)
    case Ok(pr) =>
      if Get(pr, "merged") != JBool(true) then Err("pull_request.merged must be true")
      else
        match ExtractIssueId(BodyOf(pr))
        case Err(e) => Err(e)
        case Ok(issueId) =>
          match RequiredStr(pr, "html_url", "pull_request.html_url")
          case Err(e) => Err(e)
          case Ok(prUrl) =>
            match RequiredStr(pr, "merge_commit_sha", "pull_request.merge_commit_sha")
            case Err(e) => Err(e)
            case Ok(sha) =>
              match RequiredStr(pr, "merged_at", "pull_request.merged_at")
              case Err(e) => Err(e)
              case Ok(at) => Ok(Payload(issueId, prUrl, sha, at, true, source))
  }

  /** What a valid event is, independently of the order of the checks. */
  ghost predicate ValidEvent(event: map<string, Json>) {
    var v := Get(event, "pull_request");
    v.JObj? && Get(v.fields, "merged") == JBool(true)
    && ExtractIssueId(BodyOf(v.fields)).Ok?
    && IsNonBlankStr(Get(v.fields, "html_url"))
    && IsNonBlankStr(Get(v.fields, "merge_commit_sha"))
    && IsNonBlankStr(Get(v.fields, "merged_at"))
  }

  /** A payload is built exactly from a valid event; it is then merged, carries the
      given source and the event's own strings, and names the canonical issue. */
  lemma BuildPayloadIff(event: map<string, Json>, source: Source)
    ensures BuildPayloadFromEvent(event, source).Ok? <==> ValidEvent(event)
    ensures var r := BuildPayloadFromEvent(event, source);
      r.Ok? ==>
        var pr := Get(event, "pull_request").fields;
        r.value.merged && r.value.source == source
        && r.value.issueId == ExtractIssueId(BodyOf(pr)).value && IsCanonicalId(r.value.issueId)
        && JStr(r.value.prUrl) == Get(pr, "html_url")
        && JStr(r.value.mergeSha) == Get(pr, "merge_commit_sha")
        && JStr(r.value.mergedAt) == Get(pr, "merged_at")
  {
  }

  /** `merged` must be the boolean true itself: `1` or `"true"` do not pass `is True`. */
  lemma MergedMustBeTrue(event: map<string, Json>, source: Source)
    requires Get(event, "pull_request").JObj?
    requires Get(Get(event, "pull_request").fields, "merged") != JBool(true)
    ensures BuildPayloadFromEvent(event, source) == Err("pull_request.merged must be true")
  {
  }

  /** `build_operator_payload`: the four strings stripped, `merged` set. */
  function BuildOperatorPayload(issueId: string, prUrl: string, mergeSha: string, mergedAt: string,
                                source: Source): (r: Payload)
    ensures r.merged && r.source == source
  {
    Payload(Strip(issueId), Strip(prUrl), Strip(mergeSha), Strip(mergedAt), true, source)
  }

  /** The operator's strings are used without their surrounding whitespace; a string
      without any is used as given. */
  lemma OperatorPayloadStrips(issueId: string, prUrl: string, mergeSha: string, mergedAt: string, source: Source)
    ensures var r := BuildOperatorPayload(issueId, prUrl, mergeSha, mergedAt, source);
      (r.issueId == [] || (!IsSpace(r.issueId[0]) && !IsSpace(r.issueId[|r.issueId| - 1])))
      && (r.prUrl == [] || (!IsSpace(r.prUrl[0]) && !IsSpace(r.prUrl[|r.prUrl| - 1])))
      && (r.mergeSha == [] || (!IsSpace(r.mergeSha[0]) && !IsSpace(r.mergeSha[|r.mergeSha| - 1])))
      && (r.mergedAt == [] || (!IsSpace(r.mergedAt[0]) && !IsSpace(r.mergedAt[|r.mergedAt| - 1])))
    ensures issueId != [] && !IsSpace(issueId[0]) && !IsSpace(issueId[|issueId| - 1]) ==>
      BuildOperatorPayload(issueId, prUrl, mergeSha, mergedAt, source).issueId == issueId
  {
    StripShape(issueId);
    StripShape(prUrl);
    StripShape(mergeSha);
    StripShape(mergedAt);
    if issueId != [] && !IsSpace(issueId[0]) && !IsSpace(issueId[|issueId| - 1]) {
      StripOfNonSpaceEnds(issueId);
    }
  }

  // ---------------------------------------------------------------------------
  // Dispatch

  datatype DispatchOutcome = DispatchOutcome(
    invoked: bool, reason: string, payload: Option<Payload>, result: Option<CloseResult>)

  const INVOKED := "merge closer invoked"
  const DRY_RUN := "dry-run: merge closer invocation skipped"

  /** `dispatch_merge_close` with `apply_merge_close` against the tracker: one call of
      the closer, whose writes are exactly one run of the rule set; an exception of the
      closer escapes. */
  method DispatchMergeClose(t: Tracker, p: Payload, d: Decoders) returns (r: Result<DispatchOutcome>)
    modifies t
    ensures t.log == old(t.log) + ApplySpec(old(t.issues), p, d).writes
    ensures t.issues == ApplyAll(old(t.issues), ApplySpec(old(t.issues), p, d).writes)
    ensures var res := ApplySpec(old(t.issues), p, d).result;
      r == if res.Err? then Err(res.error) else Ok(DispatchOutcome(true, INVOKED, Some(p), Some(res.value)))
    ensures old(t.Valid()) ==> t.Valid()
  {
    var res := ApplyMergeClose(t, p, d);
    if res.Err? {
      return Err(res.error);
    }
    r := Ok(DispatchOutcome(true, INVOKED, Some(p), Some(res.value)));
  }

  /** `dispatch_from_event`: an event that does not build a payload is reported, not
      invoked, and leaves the tracker untouched. */
  method DispatchFromEvent(t: Tracker, event: map<string, Json>, source: Source, d: Decoders)
    returns (r: Result<DispatchOutcome>)
    modifies t
    ensures var b := BuildPayloadFromEvent(event, source);
      b.Err? ==> r == Ok(DispatchOutcome(false, b.error, None, None))
                 && t.log == old(t.log) && t.issues == old(t.issues)
    ensures var b := BuildPayloadFromEvent(event, source);
      b.Ok? ==>
        var o := ApplySpec(old(t.issues), b.value, d);
        t.log == old(t.log) + o.writes && t.issues == ApplyAll(old(t.issues), o.writes)
        && r == if o.result.Err? then Err(o.result.error)
                else Ok(DispatchOutcome(true, INVOKED, Some(b.value), Some(o.result.value)))
    ensures old(t.Valid()) ==> t.Valid()
  {
    var b := BuildPayloadFromEvent(event, source);
    if b.Err? {
      return Ok(DispatchOutcome(false, b.error, None, None));
    }
    r := DispatchMergeClose(t, b.value, d);
  }

  /** `preview_from_event`: never invokes; carries the payload exactly when one could
      be built. */
  function PreviewFromEvent(event: map<string, Json>, source: Source): (r: DispatchOutcome)
    ensures !r.invoked && r.result.None?
    ensures r.payload.Some? <==> BuildPayloadFromEvent(event, source).Ok?
    ensures r.payload.Some? ==> r.payload.value == BuildPayloadFromEvent(event, source).value
    ensures r.payload.None? ==> r.reason == BuildPayloadFromEvent(event, source).error
  {
    match BuildPayloadFromEvent(event, source)
    case Err(e) => DispatchOutcome(false, e, None, None)
    case Ok(p) => DispatchOutcome(false, DRY_RUN, Some(p), None)
  }
}

/** What the merge-close daemon reads off one fetched pull-request record: the
    event it hands to the close-on-merge runtime, and the replay identity that keeps
    one merge from being applied twice. */
module MergeCloseRecords {
  import opened Common
  import opened MergeCloser
  import opened CloseOnMerge

  // ---------------------------------------------------------------------------
  // `urlparse(url).path`, as far as the replay key reads it

  /** `urlsplit` strips C0 controls and spaces from the front of the URL. */
  function LStripControls(s: string): string {
    if s != [] && s[0] <= ' ' then LStripControls(s[1..]) else s
  }

  predicate IsUnsafeUrlChar(c: char) { c == '\t' || c == '\r' || c == '\n' }

  predicate NoChar(s: string, c: char) {
    forall x :: 0 <= x < |s| ==> s[x] != c
  }

  /** ... and deletes every tab, carriage return and line feed. */
  function RemoveUnsafe(s: string): string {
    if s == [] then [] else (if IsUnsafeUrlChar(s[0]) then [] else [s[0]]) + RemoveUnsafe(s[1..])
  }

  predicate IsSchemeChar(c: char) { IsAsciiAlnum(c) || c == '+' || c == '-' || c == '.' }

  /** The scheme is the text before the first colon when it starts with an ASCII
      letter and holds only scheme characters; it is lower-cased. */
  function SplitScheme(u: string): (string, string) {
    match IndexFrom(u, ':', 0)
    case None => ("", u)
    case Some(i) =>
      if i > 0 && (IsAsciiLower(u[0]) || IsAsciiUpper(u[0])) && forall k :: 0 <= k < i ==> IsSchemeChar(u[k])
      then (Lower(u[..i]), u[i + 1..])
      else ("", u)
  }

  predicate IsNetlocDelim(c: char) { c == '/' || c == '?' || c == '#' }

  /** `_splitnetloc`: the network location runs to the first `/`, `?` or `#`. */
  function NetlocEnd(u: string, i: nat): (e: nat)
    requires i <= |u|
    ensures i <= e <= |u| && (e == |u| || IsNetlocDelim(u[e]))
    ensures forall x :: i <= x < e ==> !IsNetlocDelim(u[x])
    decreases |u| - i
  {
    if i == |u| || IsNetlocDelim(u[i]) then i else NetlocEnd(u, i + 1)
  }

  /** The schemes for which `urlparse` splits `;params` off the path. */
  const UsesParams: seq<string> := ["", "ftp", "hdl", "prospero", "http", "imap", "https", "shttp",
                                   "rtsp", "rtspu", "sip", "sips", "mms", "sftp", "tel"]

  /** `_splitparams`: the path stops at the first `;` of its last segment. */
  function SplitParams(path: string): (r: string)
    ensures |r| <= |path| && r == path[..|r|]
  {
    var from := match LastIndexOf(path, '/') case Some(j) => j case None => 0;
    match IndexFrom(path, ';', from)
    case None => path
    case Some(i) => path[..i]
  }

  /** Text up to the first `c`, or all of it. */
  function Before(s: string, c: char): (r: string)
    ensures |r| <= |s| && r == s[..|r|] && NoChar(r, c)
  {
    match IndexFrom(s, c, 0)
    case None => s
    case Some(i) => s[..i]
  }

  /** `urlparse(url).path`; a host with one bracket and not the other is the
      `ValueError` `urlsplit` raises. */
  function UrlPath(url: string): (r: Result<string>)
    ensures r.Err? ==> r.error == "Invalid IPv6 URL"
  {
    var u := RemoveUnsafe(LStripControls(url));
    var (scheme, rest) := SplitScheme(u);
    var hasNetloc := StartsWith(rest, "//");
    var e := if hasNetloc then NetlocEnd(rest, 2) else 0;
    var netloc := if hasNetloc then rest[2..e] else "";
    var tail := rest[e..];
    if ('[' in netloc) != (']' in netloc) then Err("Invalid IPv6 URL")
    else
      var path := Before(Before(tail, '#'), '?');
      Ok(if scheme in UsesParams then SplitParams(path) else path)
  }

  /** The path never holds the fragment or query separators. */
  lemma UrlPathHasNoHash(url: string)
    requires UrlPath(url).Ok?
    ensures NoChar(UrlPath(url).value, '#')
  {
    var u := RemoveUnsafe(LStripControls(url));
    var (scheme, rest) := SplitScheme(u);
    var e := if StartsWith(rest, "//") then NetlocEnd(rest, 2) else 0;
    var tail := rest[e..];
    var noFrag := Before(tail, '#');
    var path := Before(noFrag, '?');
    assert NoChar(path, '#') by {
      forall x | 0 <= x < |path| ensures path[x] != '#' {
        assert path[x] == noFrag[x];
      }
    }
    if scheme in UsesParams {
      var r := SplitParams(path);
      forall x | 0 <= x < |r| ensures r[x] != '#' {
        assert r[x] == path[x];
      }
    }
  }

  /** `[part for part in path.split("/") if part]`, from position `i` on. */
  function SegmentsFrom(path: string, i: nat): (r: seq<string>)
    requires i <= |path|
    ensures forall k :: 0 <= k < |r| ==> r[k] != [] && NoChar(r[k], '/')
    decreases |path| - i
  {
    if i == |path| then []
    else
      match IndexFrom(path, '/', i)
      case None => [path[i..]]
      case Some(j) => (if j > i then [path[i..j]] else []) + SegmentsFrom(path, j + 1)
  }

  function Segments(path: string): (r: seq<string>) {
    SegmentsFrom(path, 0)
  }

  /** A character the path lacks is lacking from every segment. */
  lemma {:induction false} SegmentsAvoid(path: string, i: nat, c: char)
    requires i <= |path| && NoChar(path, c)
    ensures forall k :: 0 <= k < |SegmentsFrom(path, i)| ==> NoChar(SegmentsFrom(path, i)[k], c)
    decreases |path| - i
  {
    if i < |path| {
      match IndexFrom(path, '/', i)
      case None =>
        assert forall x :: 0 <= x < |path[i..]| ==> path[i..][x] == path[i + x];
      case Some(j) =>
        SegmentsAvoid(path, j + 1, c);
        assert forall x :: 0 <= x < |path[i..j]| ==> path[i..j][x] == path[i + x];
    }
  }

  /** `_repo_slug_from_pr_url`: the first two non-empty path segments. */
  function RepoSlugFromPrUrl(prUrl: string): (r: Result<string>)
  {
    match UrlPath(prUrl)
    case Err(e) => Err(e)
    case Ok(path) =>
      var parts := Segments(path);
      if |parts| < 2 then Err("invalid pull request url") else Ok(parts[0] + "/" + parts[1])
  }

  /** The slug is `owner/repo` for two non-empty segments without `/` or `#`. */
  lemma RepoSlugShape(prUrl: string)
    requires RepoSlugFromPrUrl(prUrl).Ok?
    ensures var path := UrlPath(prUrl).value; var parts := Segments(path);
      |parts| >= 2 && RepoSlugFromPrUrl(prUrl).value == parts[0] + "/" + parts[1]
      && parts[0] != [] && parts[1] != [] && NoChar(parts[0], '/') && NoChar(parts[1], '/')
      && NoChar(parts[0], '#') && NoChar(parts[1], '#')
  {
    UrlPathHasNoHash(prUrl);
    SegmentsAvoid(UrlPath(prUrl).value, 0, '#');
  }

  /** `isinstance(v, int)`: Python's `bool` is an `int`. */
  predicate PyIsInt(v: Json) { v.JInt? || v.JBool? }

  /** `f"{v}"` for an int or a bool. */
  function PyIntText(v: Json): (r: string)
    requires PyIsInt(v)
    ensures NoChar(r, '#')
  {
    if v.JInt? then IntTextNoHash(v.n); IntToString(v.n) else if v.b then "True" else "False"
  }

  lemma IntTextNoHash(n: int)
    ensures NoChar(IntToString(n), '#')
  {
    var r := IntToString(n);
    if n < 0 {
      assert forall x :: 1 <= x < |r| ==> r[x] == NatToString(-n)[x - 1];
    }
  }

  /** The integer order `_sort_number` and the tuple sort see: `True` is 1. */
  function PyIntValue(v: Json): int
    requires PyIsInt(v)
  {
    if v.JInt? then v.n else if v.b then 1 else 0
  }

  const NUMBER_NOT_INT := "pr number must be an int"

  /** `_replay_identity_key`: `"{owner}/{repo}#{number}#{merge_sha}"`. */
  function ReplayIdentityKey(prUrl: string, prNumber: Json, mergeSha: string): (r: Result<string>)
    ensures r.Ok? <==> PyIsInt(prNumber) && RepoSlugFromPrUrl(prUrl).Ok?
    ensures !PyIsInt(prNumber) ==> r == Err(NUMBER_NOT_INT)
  {
    if !PyIsInt(prNumber) then Err(NUMBER_NOT_INT)
    else
      match RepoSlugFromPrUrl(prUrl)
      case Err(e) => Err(e)
      case Ok(slug) => Ok(slug + "#" + PyIntText(prNumber) + "#" + mergeSha)
  }

  /** Two `#`-joined triples whose first two parts have no `#` are equal only part by part. */
  lemma HashJoinUnique(a1: string, b1: string, c1: string, a2: string, b2: string, c2: string)
    requires NoChar(a1, '#') && NoChar(b1, '#') && NoChar(a2, '#') && NoChar(b2, '#')
    requires a1 + "#" + b1 + "#" + c1 == a2 + "#" + b2 + "#" + c2
    ensures a1 == a2 && b1 == b2 && c1 == c2
  {
    var t1, t2 := b1 + "#" + c1, b2 + "#" + c2;
    assert a1 + "#" + b1 + "#" + c1 == a1 + ("#" + t1);
    assert a2 + "#" + b2 + "#" + c2 == a2 + ("#" + t2);
    HashSplit(a1, "#" + t1, a2, "#" + t2);
    assert t1 == ("#" + t1)[1..];
    assert t2 == ("#" + t2)[1..];
    assert t1 == b1 + ("#" + c1) && t2 == b2 + ("#" + c2);
    HashSplit(b1, "#" + c1, b2, "#" + c2);
    assert c1 == ("#" + c1)[1..];
    assert c2 == ("#" + c2)[1..];
  }

  /** A prefix free of `#` followed by `#` is fixed by the text. */
  lemma HashSplit(a1: string, r1: string, a2: string, r2: string)
    requires NoChar(a1, '#') && NoChar(a2, '#') && r1 != [] && r1[0] == '#' && r2 != [] && r2[0] == '#'
    requires a1 + r1 == a2 + r2
    ensures a1 == a2 && r1 == r2
  {
    var s := a1 + r1;
    assert a1 == s[..|a1|] && a2 == s[..|a2|];
    assert r1 == s[|a1|..] && r2 == s[|a2|..];
  }

  /** The replay key identifies the pull request: equal keys come from the same
      repository slug, the same number text and the same merge commit. */
  lemma ReplayKeyIdentifies(u1: string, n1: Json, s1: string, u2: string, n2: Json, s2: string)
    requires ReplayIdentityKey(u1, n1, s1).Ok? && ReplayIdentityKey(u1, n1, s1) == ReplayIdentityKey(u2, n2, s2)
    ensures RepoSlugFromPrUrl(u1) == RepoSlugFromPrUrl(u2) && PyIntText(n1) == PyIntText(n2) && s1 == s2
  {
    RepoSlugShape(u1);
    RepoSlugShape(u2);
    var a1 := RepoSlugFromPrUrl(u1).value;
    var a2 := RepoSlugFromPrUrl(u2).value;
    SlugHasNoHash(u1);
    SlugHasNoHash(u2);
    HashJoinUnique(a1, PyIntText(n1), s1, a2, PyIntText(n2), s2);
  }

  lemma SlugHasNoHash(prUrl: string)
    requires RepoSlugFromPrUrl(prUrl).Ok?
    ensures NoChar(RepoSlugFromPrUrl(prUrl).value, '#')
  {
    RepoSlugShape(prUrl);
    var parts := Segments(UrlPath(prUrl).value);
    var slug := parts[0] + "/" + parts[1];
    forall x | 0 <= x < |slug| ensures slug[x] != '#' {
      if x < |parts[0]| { assert slug[x] == parts[0][x]; }
      else if x > |parts[0]| { assert slug[x] == parts[1][x - |parts[0]| - 1]; }
    }
  }

  // ---------------------------------------------------------------------------
  // `_record_to_event`

  /** `merge_commit.get("oid")` when the commit is an object, else None. */
  function MergeShaOf(record: map<string, Json>): Json {
    var mc := Get(record, "mergeCommit");
    if mc.JObj? then Get(mc.fields, "oid") else JNull
  }

  function RecordToEvent(record: map<string, Json>): (r: Option<map<string, Json>>)
  {
    var number := Get(record, "number");
    var url := Get(record, "url");
    var mergedAt := Get(record, "mergedAt");
    var sha := MergeShaOf(record);
    if !PyIsInt(number) || !IsNonBlankStr(url) || !IsNonBlankStr(mergedAt) || !IsNonBlankStr(sha) then None
    else
      var body := Get(record, "body");
      Some(map["pull_request" := JObj(map[
        "merged" := JBool(true), "html_url" := url, "merge_commit_sha" := sha,
        "merged_at" := mergedAt, "body" := JStr(if body.JStr? then body.s else "")])])
  }

  /** A usable record: an int number and non-blank url, merge time and merge commit. */
  predicate WellFormedRecord(record: map<string, Json>) {
    PyIsInt(Get(record, "number")) && IsNonBlankStr(Get(record, "url"))
    && IsNonBlankStr(Get(record, "mergedAt")) && IsNonBlankStr(MergeShaOf(record))
  }

  /** The event of a usable record always passes the structural checks of payload
      construction: only the issue line of the body can still fail, and the payload
      carries the record's url, commit and merge time as they are. */
  lemma RecordEventPayload(record: map<string, Json>)
    ensures RecordToEvent(record).Some? <==> WellFormedRecord(record)
    ensures RecordToEvent(record).Some? ==>
      var body := Get(record, "body");
      var text := if body.JStr? then body.s else "";
      var b := BuildPayloadFromEvent(RecordToEvent(record).value, Daemon);
      (b.Ok? <==> ExtractIssueId(text).Ok?)
      && (b.Ok? ==> b.value == Payload(ExtractIssueId(text).value, Get(record, "url").s,
                                       MergeShaOf(record).s, Get(record, "mergedAt").s, true, Daemon))
      && (b.Err? ==> b.error == ExtractIssueId(text).error)
  {
    if WellFormedRecord(record) {
      var body := Get(record, "body");
      var text := if body.JStr? then body.s else "";
      var pr := map["merged" := JBool(true), "html_url" := Get(record, "url"),
                    "merge_commit_sha" := MergeShaOf(record), "merged_at" := Get(record, "mergedAt"),
                    "body" := JStr(text)];
      assert RecordToEvent(record) == Some(map["pull_request" := JObj(pr)]);
      assert Get(map["pull_request" := JObj(pr)], "pull_request") == JObj(pr);
      assert Get(pr, "merged") == JBool(true) && BodyOf(pr) == text;
      assert RequiredStr(pr, "html_url", "pull_request.html_url") == Ok(Get(record, "url").s);
      assert RequiredStr(pr, "merge_commit_sha", "pull_request.merge_commit_sha") == Ok(MergeShaOf(record).s);
      assert RequiredStr(pr, "merged_at", "pull_request.merged_at") == Ok(Get(record, "mergedAt").s);
    }
  }
}

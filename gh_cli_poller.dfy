// The upstream fetch the merge-close daemon runs in production: `GhCliPoller`
// pages through the repository's merged pull requests with `gh api graphql`,
// keeps those merged since the requested time and returns them sorted.

module GhCliPoller {
  import opened Common
  import opened MergeCloseRecords
  import opened MergeCloseDaemon

  // ---------------------------------------------------------------------------
  // Repository slug

  const INVALID_SLUG := "invalid repository slug: "

  /** `_split_repo_slug`: `slug.partition("/")`, refusing a slug without a slash or
      with an empty owner or name. */
  function SplitRepoSlug(slug: string): (r: Result<(string, string)>)
    ensures r.Ok? ==> r.value.0 != [] && r.value.1 != [] && slug == r.value.0 + "/" + r.value.1
                      && NoChar(r.value.0, '/')
    ensures r.Err? ==> r.error == INVALID_SLUG + slug
  {
    match IndexFrom(slug, '/', 0)
    case None => Err(INVALID_SLUG + slug)
    case Some(i) =>
      var owner := slug[..i];
      var name := slug[i + 1..];
      assert slug == owner + "/" + name;
      if owner == [] || name == [] then Err(INVALID_SLUG + slug) else Ok((owner, name))
  }

  /** A slug splits back into its owner and name whenever the owner has no slash. */
  lemma SplitRepoSlugJoin(owner: string, name: string)
    requires owner != [] && name != [] && NoChar(owner, '/')
    ensures SplitRepoSlug(owner + "/" + name) == Ok((owner, name))
  {
    var slug := owner + "/" + name;
    var r := SplitRepoSlug(slug);
    assert slug[|owner|] == '/';
    assert IndexFrom(slug, '/', 0).Some?;
    var i := IndexFrom(slug, '/', 0).value;
    assert forall x :: 0 <= x < |owner| ==> slug[x] == owner[x];
    assert i == |owner|;
    assert slug[..i] == owner && slug[i + 1..] == name;
  }

  // ---------------------------------------------------------------------------
  // One pull-request node

  /** A record the poller keeps, before it becomes the dictionary the daemon reads. */
  datatype PullRecord = PullRecord(number: Json, url: string, mergedAt: string, instant: int, body: string, sha: string)

  /** The dictionary appended to `records`. */
  function ToRecord(p: PullRecord): map<string, Json> {
    map["number" := p.number, "url" := JStr(p.url), "mergedAt" := JStr(p.mergedAt),
        "body" := JStr(p.body), "mergeCommit" := JObj(map["oid" := JStr(p.sha)])]
  }

  function MergeShaOfNode(item: map<string, Json>): Json {
    var mc := Get(item, "mergeCommit");
    if mc.JObj? then Get(mc.fields, "oid") else JNull
  }

  /** The loop body over `nodes`: a node is kept when it is an object whose
      `mergedAt` is a non-blank time no earlier than `since`, whose number is an int
      (a bool counts), and whose url and merge commit oid are non-blank strings. */
  function NodeRecord(node: Json, since: int, c: Clock): (r: Option<PullRecord>)
    ensures r.Some? <==>
      node.JObj? && IsNonBlankStr(Get(node.fields, "mergedAt"))
      && c.parse(Get(node.fields, "mergedAt").s).Ok? && c.parse(Get(node.fields, "mergedAt").s).value >= since
      && PyIsInt(Get(node.fields, "number")) && IsNonBlankStr(Get(node.fields, "url"))
      && IsNonBlankStr(MergeShaOfNode(node.fields))
    ensures r.Some? ==>
      var t := c.parse(Get(node.fields, "mergedAt").s).value;
      r.value.instant == t && r.value.mergedAt == c.format(t) && t >= since
      && r.value.number == Get(node.fields, "number") && r.value.url == Get(node.fields, "url").s
      && r.value.sha == MergeShaOfNode(node.fields).s
  {
    if !node.JObj? then None
    else
      var item := node.fields;
      var raw := Get(item, "mergedAt");
      if !IsNonBlankStr(raw) then None
      else
        match c.parse(raw.s)
        case Err(_) => None
        case Ok(t) =>
          if t < since then None
          else
            var number := Get(item, "number");
            var url := Get(item, "url");
            var sha := MergeShaOfNode(item);
            if !PyIsInt(number) || !IsNonBlankStr(url) || !IsNonBlankStr(sha) then None
            else
              var body := Get(item, "body");
              Some(PullRecord(number, url.s, c.format(t), t, if body.JStr? then body.s else "", sha.s))
  }

  /** The records kept from one page's nodes, in page order. */
  function KeptNodes(nodes: seq<Json>, since: int, c: Clock): (r: seq<PullRecord>)
    ensures |r| <= |nodes|
  {
    if nodes == [] then []
    else
      match NodeRecord(nodes[0], since, c)
      case None => KeptNodes(nodes[1..], since, c)
      case Some(p) => [p] + KeptNodes(nodes[1..], since, c)
  }

  /** `KeptNodes` keeps exactly the nodes `NodeRecord` accepts. */
  lemma {:induction false} KeptNodesMeans(nodes: seq<Json>, since: int, c: Clock)
    ensures forall p :: p in KeptNodes(nodes, since, c) <==> exists i :: 0 <= i < |nodes| && NodeRecord(nodes[i], since, c) == Some(p)
  {
    if nodes != [] {
      KeptNodesMeans(nodes[1..], since, c);
      forall p ensures p in KeptNodes(nodes, since, c) <==> exists i :: 0 <= i < |nodes| && NodeRecord(nodes[i], since, c) == Some(p) {
        if p in KeptNodes(nodes[1..], since, c) {
          var i :| 0 <= i < |nodes[1..]| && NodeRecord(nodes[1..][i], since, c) == Some(p);
          assert NodeRecord(nodes[i + 1], since, c) == Some(p);
        }
        if exists i :: 0 <= i < |nodes| && NodeRecord(nodes[i], since, c) == Some(p) {
          var i :| 0 <= i < |nodes| && NodeRecord(nodes[i], since, c) == Some(p);
          if i > 0 {
            assert NodeRecord(nodes[1..][i - 1], since, c) == Some(p);
          }
        }
      }
    }
  }

  // ---------------------------------------------------------------------------
  // One page of the GraphQL answer

  const NOT_AN_OBJECT := "gh graphql response must be an object"
  const MISSING_DATA := "gh graphql response missing data"
  const MISSING_REPOSITORY := "gh graphql response missing repository"
  const MISSING_PULL_REQUESTS := "gh graphql response missing pullRequests"
  const MISSING_NODES := "gh graphql response missing pull request nodes"

  /** A page: its nodes, and the cursor of the next page when paging goes on. */
  datatype Page = Page(nodes: seq<Json>, next: Option<string>)

  /** Paging goes on only while `hasNextPage` is the bool `true` and `endCursor` is a
      non-empty string; an empty page ends it whatever its page info says. */
  function NextCursor(pullRequests: map<string, Json>): (r: Option<string>)
    ensures r.Some? <==>
      Get(pullRequests, "pageInfo").JObj?
      && Get(Get(pullRequests, "pageInfo").fields, "hasNextPage") == JBool(true)
      && Get(Get(pullRequests, "pageInfo").fields, "endCursor").JStr?
      && Get(Get(pullRequests, "pageInfo").fields, "endCursor").s != []
    ensures r.Some? ==> r.value == Get(Get(pullRequests, "pageInfo").fields, "endCursor").s
  {
    var info := Get(pullRequests, "pageInfo");
    if !info.JObj? then None
    else
      var endCursor := Get(info.fields, "endCursor");
      if Get(info.fields, "hasNextPage") != JBool(true) then None
      else if !endCursor.JStr? || endCursor.s == [] then None
      else Some(endCursor.s)
  }

  /** The shape checks of one answer, in the order the source makes them. */
  function ParsePage(payload: Json): (r: Result<Page>)
    ensures r.Ok? && r.value.nodes == [] ==> r.value.next.None?
  {
    if !payload.JObj? then Err(NOT_AN_OBJECT)
    else
      var data := Get(payload.fields, "data");
      if !data.JObj? then Err(MISSING_DATA)
      else
        var repository := Get(data.fields, "repository");
        if !repository.JObj? then Err(MISSING_REPOSITORY)
        else
          var pullRequests := Get(repository.fields, "pullRequests");
          if !pullRequests.JObj? then Err(MISSING_PULL_REQUESTS)
          else
            var nodes := Get(pullRequests.fields, "nodes");
            if !nodes.JList? then Err(MISSING_NODES)
            else if nodes.items == [] then Ok(Page([], None))
            else Ok(Page(nodes.items, NextCursor(pullRequests.fields)))
  }

  // ---------------------------------------------------------------------------
  // Paging

  /** A request beyond the answers `gh` gives fails as a `gh` call does. */
  const GH_FAILED := "gh api graphql failed"

  /** The records kept from the pages, and the cursor sent with each request. */
  datatype Paged = Paged(records: seq<PullRecord>, cursors: seq<Option<string>>)

  /** Requests `k` onwards, request `k` carrying `cursor`; `answers[k]` is what gh
      gives for request `k`. */
  function Paging(answers: seq<Result<Json>>, k: nat, cursor: Option<string>, since: int, c: Clock): (r: Result<Paged>)
    ensures r.Ok? ==> |r.value.cursors| >= 1 && r.value.cursors[0] == cursor
    decreases |answers| - k
  {
    if k >= |answers| then Err(GH_FAILED)
    else
      match answers[k]
      case Err(e) => Err(e)
      case Ok(payload) =>
        match ParsePage(payload)
        case Err(e) => Err(e)
        case Ok(page) =>
          var kept := KeptNodes(page.nodes, since, c);
          if page.next.None? then Ok(Paged(kept, [cursor]))
          else
            match Paging(answers, k + 1, page.next, since, c)
            case Err(e) => Err(e)
            case Ok(rest) => Ok(Paged(kept + rest.records, [cursor] + rest.cursors))
  }

  /** The records and cursors gathered so far in front of the rest of the paging. */
  function After(records: seq<PullRecord>, cursors: seq<Option<string>>, rest: Result<Paged>): Result<Paged> {
    match rest
    case Err(e) => Err(e)
    case Ok(p) => Ok(Paged(records + p.records, cursors + p.cursors))
  }

  /** Every request after the first carries a non-empty cursor. */
  lemma {:induction false} PagingCursors(answers: seq<Result<Json>>, k: nat, cursor: Option<string>, since: int, c: Clock)
    ensures var r := Paging(answers, k, cursor, since, c);
      r.Ok? ==> forall i :: 1 <= i < |r.value.cursors| ==> r.value.cursors[i].Some? && r.value.cursors[i].value != []
    ensures var r := Paging(answers, k, cursor, since, c);
      r.Ok? ==> |r.value.cursors| <= |answers| - k
    decreases |answers| - k
  {
    if k < |answers| && answers[k].Ok? && ParsePage(answers[k].value).Ok? {
      var page := ParsePage(answers[k].value).value;
      if page.next.Some? {
        PagingCursors(answers, k + 1, page.next, since, c);
      }
    }
  }

  // ---------------------------------------------------------------------------
  // Sorting by (mergedAt, number)

  /** `_sort_number`: the number itself for an int (a bool as 0 or 1), else 0. */
  function SortNumber(v: Json): int {
    if PyIsInt(v) then PyIntValue(v) else 0
  }

  /** The sort key order: `mergedAt` as text, then the number. */
  predicate KeyLe(a: PullRecord, b: PullRecord) {
    StrLess(a.mergedAt, b.mergedAt) || (a.mergedAt == b.mergedAt && SortNumber(a.number) <= SortNumber(b.number))
  }

  predicate SortedByKey(xs: seq<PullRecord>) {
    forall i, j :: 0 <= i < j < |xs| ==> KeyLe(xs[i], xs[j])
  }

  lemma KeyLeTotal(a: PullRecord, b: PullRecord)
    ensures KeyLe(a, b) || KeyLe(b, a)
  {
    if a.mergedAt != b.mergedAt {
      StrLessTotal(a.mergedAt, b.mergedAt);
    }
  }

  lemma KeyLeTransitive(a: PullRecord, b: PullRecord, c: PullRecord)
    requires KeyLe(a, b) && KeyLe(b, c)
    ensures KeyLe(a, c)
  {
    if StrLess(a.mergedAt, b.mergedAt) && StrLess(b.mergedAt, c.mergedAt) {
      StrLessTransitive(a.mergedAt, b.mergedAt, c.mergedAt);
    }
  }

  /** Insert after every element whose key is not greater, as a stable sort does. */
  function Insert(x: PullRecord, xs: seq<PullRecord>): seq<PullRecord> {
    if xs == [] then [x]
    else if KeyLe(xs[0], x) then [xs[0]] + Insert(x, xs[1..])
    else [x] + xs
  }

  /** `records.sort(key=...)`: insertion sort. */
  function SortRecords(xs: seq<PullRecord>): seq<PullRecord> {
    if xs == [] then [] else Insert(xs[|xs| - 1], SortRecords(xs[..|xs| - 1]))
  }

  /** Every element of `s` has a key no less than `h`'s. */
  predicate LeAll(h: PullRecord, s: seq<PullRecord>) {
    forall j :: 0 <= j < |s| ==> KeyLe(h, s[j])
  }

  lemma SortedCons(h: PullRecord, s: seq<PullRecord>)
    requires LeAll(h, s) && SortedByKey(s)
    ensures SortedByKey([h] + s)
  {
    var r := [h] + s;
    forall i, j | 0 <= i < j < |r| ensures KeyLe(r[i], r[j]) {
      assert r[j] == s[j - 1];
      if i > 0 {
        assert r[i] == s[i - 1];
      }
    }
  }

  lemma {:induction false} InsertLeAll(h: PullRecord, x: PullRecord, xs: seq<PullRecord>)
    requires LeAll(h, xs) && KeyLe(h, x)
    ensures LeAll(h, Insert(x, xs))
    decreases |xs|
  {
    if xs != [] && KeyLe(xs[0], x) {
      InsertLeAll(h, x, xs[1..]);
      assert Insert(x, xs) == [xs[0]] + Insert(x, xs[1..]);
    }
  }

  lemma {:induction false} InsertSorted(x: PullRecord, xs: seq<PullRecord>)
    requires SortedByKey(xs)
    ensures SortedByKey(Insert(x, xs))
    decreases |xs|
  {
    if xs != [] {
      if KeyLe(xs[0], x) {
        assert SortedByKey(xs[1..]);
        InsertSorted(x, xs[1..]);
        assert LeAll(xs[0], xs[1..]);
        InsertLeAll(xs[0], x, xs[1..]);
        SortedCons(xs[0], Insert(x, xs[1..]));
      } else {
        KeyLeTotal(xs[0], x);
        forall j | 0 <= j < |xs| ensures KeyLe(x, xs[j]) {
          if j > 0 {
            KeyLeTransitive(x, xs[0], xs[j]);
          }
        }
        SortedCons(x, xs);
      }
    }
  }

  lemma {:induction false} InsertPermutes(x: PullRecord, xs: seq<PullRecord>)
    ensures multiset(Insert(x, xs)) == multiset(xs) + multiset{x}
    decreases |xs|
  {
    if xs != [] && KeyLe(xs[0], x) {
      InsertPermutes(x, xs[1..]);
      assert xs == [xs[0]] + xs[1..];
    }
  }

  /** The sorted records are ordered by key and are a permutation of the input. */
  lemma SortRecordsSpec(xs: seq<PullRecord>)
    ensures SortedByKey(SortRecords(xs))
    ensures multiset(SortRecords(xs)) == multiset(xs)
  {
    SortRecordsSorted(xs);
    SortRecordsPermutes(xs);
  }

  lemma {:induction false} SortRecordsSorted(xs: seq<PullRecord>)
    ensures SortedByKey(SortRecords(xs))
    decreases |xs|
  {
    if xs != [] {
      var init := xs[..|xs| - 1];
      SortRecordsSorted(init);
      InsertSorted(xs[|xs| - 1], SortRecords(init));
    }
  }

  lemma {:induction false} SortRecordsPermutes(xs: seq<PullRecord>)
    ensures multiset(SortRecords(xs)) == multiset(xs)
    decreases |xs|
  {
    if xs != [] {
      var init, last := xs[..|xs| - 1], xs[|xs| - 1];
      SortRecordsPermutes(init);
      InsertPermutes(last, SortRecords(init));
      assert multiset(xs) == multiset(init) + multiset{last} by {
        assert xs == init + [last];
      }
      calc {
        multiset(SortRecords(xs));
        multiset(Insert(last, SortRecords(init)));
        multiset(SortRecords(init)) + multiset{last};
        multiset(init) + multiset{last};
      }
    }
  }

  // ---------------------------------------------------------------------------
  // The whole call

  /** `__call__(since)`: the since time must parse, the slug must split, every page
      must answer in shape; the result is the kept records of every page, sorted. */
  function PollSpec(since: string, slug: string, c: Clock, answers: seq<Result<Json>>): Result<seq<map<string, Json>>> {
    match c.parse(since)
    case Err(e) => Err(e)
    case Ok(sinceT) =>
      match SplitRepoSlug(slug)
      case Err(e) => Err(e)
      case Ok(_) =>
        match Paging(answers, 0, None, sinceT, c)
        case Err(e) => Err(e)
        case Ok(paged) => Ok(ToRecords(SortRecords(paged.records)))
  }

  function ToRecords(xs: seq<PullRecord>): (r: seq<map<string, Json>>)
    ensures |r| == |xs| && forall i :: 0 <= i < |xs| ==> r[i] == ToRecord(xs[i])
  {
    if xs == [] then [] else [ToRecord(xs[0])] + ToRecords(xs[1..])
  }

  /** What the poller returns: every record was merged at or after `since` and has
      an int number and non-blank url and merge sha; the records come sorted by
      (`mergedAt`, number); and they are exactly the accepted nodes of all pages. */
  lemma PollSpecMeans(since: string, slug: string, c: Clock, answers: seq<Result<Json>>)
    ensures var r := PollSpec(since, slug, c, answers);
      r.Ok? ==>
        var sinceT := c.parse(since).value;
        var paged := Paging(answers, 0, None, sinceT, c).value;
        var sorted := SortRecords(paged.records);
        r.value == ToRecords(sorted)
        && SortedByKey(sorted) && multiset(sorted) == multiset(paged.records)
        && (forall i :: 0 <= i < |sorted| ==> Accepted(sorted[i], sinceT))
  {
    var r := PollSpec(since, slug, c, answers);
    if r.Ok? {
      var sinceT := c.parse(since).value;
      var paged := Paging(answers, 0, None, sinceT, c).value;
      var sorted := SortRecords(paged.records);
      SortRecordsSpec(paged.records);
      PagingKeeps(answers, 0, None, sinceT, c);
      forall i | 0 <= i < |sorted| ensures Accepted(sorted[i], sinceT) {
        assert sorted[i] in multiset(paged.records);
      }
    }
  }

  /** What `NodeRecord` guarantees of a record it keeps. */
  predicate Accepted(p: PullRecord, since: int) {
    p.instant >= since && PyIsInt(p.number) && !IsBlank(p.url) && !IsBlank(p.sha)
  }

  lemma {:induction false} KeptNodesAccepted(nodes: seq<Json>, since: int, c: Clock)
    ensures forall p :: p in KeptNodes(nodes, since, c) ==> Accepted(p, since)
  {
    KeptNodesMeans(nodes, since, c);
  }

  lemma {:induction false} PagingKeeps(answers: seq<Result<Json>>, k: nat, cursor: Option<string>, since: int, c: Clock)
    ensures var r := Paging(answers, k, cursor, since, c);
      r.Ok? ==> forall p :: p in r.value.records ==> Accepted(p, since)
    decreases |answers| - k
  {
    if k < |answers| && answers[k].Ok? && ParsePage(answers[k].value).Ok? {
      var page := ParsePage(answers[k].value).value;
      KeptNodesAccepted(page.nodes, since, c);
      if page.next.Some? {
        PagingKeeps(answers, k + 1, page.next, since, c);
      }
    }
  }

  /** `GhCliPoller.__call__`: the loop over pages, then the sort. */
  method Poll(since: string, slug: string, c: Clock, answers: seq<Result<Json>>)
    returns (r: Result<seq<map<string, Json>>>, cursors: seq<Option<string>>)
    ensures r == PollSpec(since, slug, c, answers)
    ensures var sinceT := c.parse(since);
      r.Ok? ==> cursors == Paging(answers, 0, None, sinceT.value, c).value.cursors
  {
    cursors := [];
    var sinceT := c.parse(since);
    if sinceT.Err? {
      return Err(sinceT.error), cursors;
    }
    var split := SplitRepoSlug(slug);
    if split.Err? {
      return Err(split.error), cursors;
    }
    var records: seq<PullRecord> := [];
    var cursor: Option<string> := None;
    var k := 0;
    AfterNothing(Paging(answers, 0, None, sinceT.value, c));
    while true
      invariant Paging(answers, 0, None, sinceT.value, c) == After(records, cursors, Paging(answers, k, cursor, sinceT.value, c))
      decreases |answers| - k
    {
      if k >= |answers| {
        return Err(GH_FAILED), cursors;
      }
      ghost var before := Paging(answers, k, cursor, sinceT.value, c);
      ghost var records0, cursors0 := records, cursors;
      cursors := cursors + [cursor];
      if answers[k].Err? {
        return Err(answers[k].error), cursors;
      }
      var page := ParsePage(answers[k].value);
      if page.Err? {
        return Err(page.error), cursors;
      }
      if page.value.nodes == [] {
        assert before == Ok(Paged([], [cursor]));
        assert records0 + [] == records;
        break;
      }
      var kept := KeptNodes(page.value.nodes, sinceT.value, c);
      records := records + kept;
      if page.value.next.None? {
        assert before == Ok(Paged(kept, [cursor]));
        break;
      }
      ghost var rest := Paging(answers, k + 1, page.value.next, sinceT.value, c);
      assert before == After(kept, [cursor], rest);
      AfterAssoc(records0, kept, cursors0, [cursor], rest);
      cursor := page.value.next;
      k := k + 1;
    }
    var sorted := SortRecords(records);
    r := Ok(ToRecords(sorted));
  }

  lemma AfterNothing(rest: Result<Paged>)
    ensures After([], [], rest) == rest
  {
    if rest.Ok? {
      assert [] + rest.value.records == rest.value.records;
      assert [] + rest.value.cursors == rest.value.cursors;
    }
  }

  lemma AfterAssoc(a: seq<PullRecord>, b: seq<PullRecord>, ca: seq<Option<string>>, cb: seq<Option<string>>, rest: Result<Paged>)
    ensures After(a, ca, After(b, cb, rest)) == After(a + b, ca + cb, rest)
  {
    if rest.Ok? {
      assert a + (b + rest.value.records) == (a + b) + rest.value.records;
      assert ca + (cb + rest.value.cursors) == (ca + cb) + rest.value.cursors;
    }
  }
}

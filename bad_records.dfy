/** The bad-records summarizer: rejected records are grouped by violation (source
    table, field, reason), counted, and reported most frequent first, with a bounded
    number of types, a bounded number of samples per type and every text cut to a
    bounded length. */
module BadRecords {
  import opened Common

  /** The limits of a summary; `DEFAULT_LIMITS` holds the source's defaults. */
  datatype Limits = Limits(maxTypeCount: int, maxSamples: int, maxTable: int, maxField: int,
                           maxReason: int, maxRecordJson: int)

  const DEFAULT_LIMITS := Limits(50, 10, 80, 80, 160, 240)
  const REASON_KEYS := ["detail", "rule", "reason"]
  const UNKNOWN := "unknown"

  /** The two library calls the summarizer makes: `json.loads` (`None` for a
      `JSONDecodeError`) and `str()` of a list or dict. */
  datatype Oracles = Oracles(decode: string -> Option<Json>, repr: Json -> string)

  /** A rejected record. */
  type Record = map<string, Json>

  function Max(a: int, b: int): int { if a >= b then a else b }
  function Min(a: int, b: int): int { if a <= b then a else b }

  /** `_abbreviate`: text that fits is kept; longer text is cut to the limit (a negative
      limit counts as zero), ending in "..." when the limit leaves room for more than
      the dots. */
  function Abbreviate(text: string, maxLength: int): (r: string)
    ensures |r| <= Max(0, maxLength)
    ensures |text| <= Max(0, maxLength) ==> r == text
    ensures |text| > Max(0, maxLength) ==> |r| == Max(0, maxLength)
    ensures |text| > maxLength > 3 ==> r[..maxLength - 3] == text[..maxLength - 3] && r[maxLength - 3..] == "..."
    ensures |text| > Max(0, maxLength) && maxLength <= 3 ==> r == text[..|r|]
  {
    var n := Max(0, maxLength);
    if |text| <= n then text
    else if n <= 3 then text[..n]
    else text[..n - 3] + "..."
  }

  // ---------------------------------------------------------------------------
  // Field and reason

  /** The reason object: a dict as it is, a string that decodes to an object, otherwise
      an empty object. */
  function ParsedReason(raw: Json, decode: string -> Option<Json>): map<string, Json> {
    if raw.JObj? then raw.fields
    else if raw.JStr? && decode(raw.s).Some? && decode(raw.s).value.JObj? then decode(raw.s).value.fields
    else map[]
  }

  /** The field: a non-blank string, else "unknown". */
  function FieldText(parsed: map<string, Json>): (r: string)
    ensures r == UNKNOWN || (Get(parsed, "field") == JStr(r) && !IsBlank(r))
  {
    var v := Get(parsed, "field");
    if v.JStr? && !IsBlank(v.s) then v.s else UNKNOWN
  }

  /** The text of the first of `keys` whose value is neither missing nor None and whose
      text is not blank. */
  function FirstReason(parsed: map<string, Json>, keys: seq<string>, repr: Json -> string): (r: Option<string>)
    ensures r.Some? ==> !IsBlank(r.value)
  {
    if keys == [] then None
    else
      var v := Get(parsed, keys[0]);
      if !v.JNull? && !IsBlank(PyStr(v, repr)) then Some(PyStr(v, repr)) else FirstReason(parsed, keys[1..], repr)
  }

  /** `_extract_field_and_reason` as a value: the reason is the first non-blank of
      detail, rule and reason; failing that the raw reason text when it is a non-empty
      string, else "unknown". */
  function FieldAndReason(raw: Json, o: Oracles): (string, string) {
    var parsed := ParsedReason(raw, o.decode);
    var original := if raw.JStr? then raw.s else "";
    var first := FirstReason(parsed, REASON_KEYS, o.repr);
    (FieldText(parsed), if first.Some? then first.value else if original != "" then original else UNKNOWN)
  }

  /** `_extract_field_and_reason` */
  method ExtractFieldAndReason(raw: Json, o: Oracles) returns (field: string, reason: string)
    ensures (field, reason) == FieldAndReason(raw, o)
  {
    var parsed: map<string, Json> := map[];
    var original := "";
    if raw.JObj? {
      parsed := raw.fields;
    } else if raw.JStr? {
      original := raw.s;
      var loaded := o.decode(raw.s);
      if loaded.Some? && loaded.value.JObj? {
        parsed := loaded.value.fields;
      }
    }
    var fieldValue := Get(parsed, "field");
    field := if fieldValue.JStr? then fieldValue.s else UNKNOWN;
    if IsBlank(field) {
      field := UNKNOWN;
    }
    reason := "";
    var i := 0;
    while i < |REASON_KEYS|
      invariant 0 <= i <= |REASON_KEYS|
      invariant IsBlank(reason)
      invariant FirstReason(parsed, REASON_KEYS, o.repr) == FirstReason(parsed, REASON_KEYS[i..], o.repr)
    {
      assert REASON_KEYS[i..][0] == REASON_KEYS[i] && REASON_KEYS[i..][1..] == REASON_KEYS[i + 1..];
      var value := Get(parsed, REASON_KEYS[i]);
      if value.JNull? {
        i := i + 1;
        continue;
      }
      reason := PyStr(value, o.repr);
      if !IsBlank(reason) {
        assert FirstReason(parsed, REASON_KEYS, o.repr) == Some(reason);
        return;
      }
      i := i + 1;
    }
    reason := if original != "" then original else UNKNOWN;
  }

  // ---------------------------------------------------------------------------
  // Grouping

  /** The violation a record is grouped under, before any abbreviation. */
  datatype Violation = Violation(table: string, field: string, reason: string)

  /** `_normalize_text(record.get("source_table", "unknown"))` */
  function TableText(record: Record, repr: Json -> string): string {
    if "source_table" in record then PyStr(record["source_table"], repr) else UNKNOWN
  }

  function KeyOf(record: Record, o: Oracles): Violation {
    var fr := FieldAndReason(Get(record, "reason"), o);
    Violation(TableText(record, o.repr), fr.0, fr.1)
  }

  /** A record's sample: its `record_json` text, abbreviated. */
  function SampleOf(record: Record, o: Oracles, maxRecordJson: int): string {
    Abbreviate(if "record_json" in record then PyStr(record["record_json"], o.repr) else "", maxRecordJson)
  }

  function KeysOf(records: seq<Record>, o: Oracles): (r: seq<Violation>)
    ensures |r| == |records| && forall i :: 0 <= i < |records| ==> r[i] == KeyOf(records[i], o)
  {
    seq(|records|, i requires 0 <= i < |records| => KeyOf(records[i], o))
  }

  function SamplesOf(records: seq<Record>, o: Oracles, maxRecordJson: int): (r: seq<string>)
    ensures |r| == |records| && forall i :: 0 <= i < |records| ==> r[i] == SampleOf(records[i], o, maxRecordJson)
  {
    seq(|records|, i requires 0 <= i < |records| => SampleOf(records[i], o, maxRecordJson))
  }

  /** The two dictionaries of the grouping loop, and the order in which their keys
      were first seen. */
  datatype Groups = Groups(counts: map<Violation, nat>, samples: map<Violation, seq<string>>, order: seq<Violation>)

  /** One pass of the grouping loop: the count grows, and the sample is kept while the
      violation has fewer than `maxSamples`. */
  function AddRecord(g: Groups, k: Violation, sample: string, maxSamples: int): Groups {
    var c := if k in g.counts then g.counts[k] else 0;
    var s := if k in g.samples then g.samples[k] else [];
    Groups(g.counts[k := c + 1], g.samples[k := if |s| < maxSamples then s + [sample] else s],
           if k in g.counts then g.order else g.order + [k])
  }

  /** The grouping loop over records with violations `keys` and samples `samples`. */
  function Group(keys: seq<Violation>, samples: seq<string>, maxSamples: int): Groups
    requires |keys| == |samples|
    decreases |keys|
  {
    if keys == [] then Groups(map[], map[], [])
    else
      var n := |keys| - 1;
      AddRecord(Group(keys[..n], samples[..n], maxSamples), keys[n], samples[n], maxSamples)
  }

  /** The samples of the records with violation `k`, in record order. */
  function SamplesFor(keys: seq<Violation>, samples: seq<string>, k: Violation): seq<string>
    requires |keys| == |samples|
    decreases |keys|
  {
    if keys == [] then []
    else
      var n := |keys| - 1;
      SamplesFor(keys[..n], samples[..n], k) + (if keys[n] == k then [samples[n]] else [])
  }

  /** The first `n` elements, or all of them. */
  function Take(s: seq<string>, n: int): (r: seq<string>)
    ensures |r| == Min(|s|, Max(0, n)) && r == s[..|r|]
  {
    if n <= 0 then [] else if |s| <= n then s else s[..n]
  }

  lemma TakeSnoc(s: seq<string>, x: string, n: int)
    ensures Take(s + [x], n) == if |Take(s, n)| < n then Take(s, n) + [x] else Take(s, n)
  {
    if n > 0 && |s| >= n {
      assert (s + [x])[..n] == s[..n];
    }
  }

  lemma {:induction false} SamplesForCount(keys: seq<Violation>, samples: seq<string>, k: Violation)
    requires |keys| == |samples|
    ensures |SamplesFor(keys, samples, k)| == multiset(keys)[k]
    decreases |keys|
  {
    if keys != [] {
      var n := |keys| - 1;
      SamplesForCount(keys[..n], samples[..n], k);
      assert keys == keys[..n] + [keys[n]];
    }
  }

  /** What the grouping keeps: the first `maxSamples` samples and the count of each
      violation, and every violation once, in the order they first appear. */
  ghost predicate Grouping(g: Groups, keys: seq<Violation>, samples: seq<string>, maxSamples: int)
    requires |keys| == |samples|
  {
    g.counts.Keys == g.samples.Keys
    && (forall k :: k in g.counts <==> k in keys)
    && (forall k :: k in g.order <==> k in keys)
    && (forall i, j :: 0 <= i < j < |g.order| ==> g.order[i] != g.order[j])
    && (forall k :: k in g.counts ==>
          g.counts[k] == multiset(keys)[k] && g.samples[k] == Take(SamplesFor(keys, samples, k), maxSamples))
  }

  lemma OrderStep(g: Groups, keys: seq<Violation>, samples: seq<string>, k: Violation, sample: string, maxSamples: int)
    requires |keys| == |samples| && Grouping(g, keys, samples, maxSamples)
    ensures var g' := AddRecord(g, k, sample, maxSamples);
      g'.counts.Keys == g'.samples.Keys
      && (forall x :: x in g'.counts <==> x in keys + [k])
      && (forall x :: x in g'.order <==> x in keys + [k])
      && (forall i, j :: 0 <= i < j < |g'.order| ==> g'.order[i] != g'.order[j])
  {
    assert forall x :: x in keys + [k] <==> x in keys || x == k;
  }

  lemma SamplesForSnoc(keys: seq<Violation>, samples: seq<string>, k: Violation, sample: string, x: Violation)
    requires |keys| == |samples|
    ensures SamplesFor(keys + [k], samples + [sample], x) == SamplesFor(keys, samples, x) + (if k == x then [sample] else [])
  {
    assert (keys + [k])[..|keys|] == keys && (samples + [sample])[..|keys|] == samples;
  }

  /** One record's effect on one violation's count and samples. */
  lemma CountStepAt(g: Groups, keys: seq<Violation>, samples: seq<string>, k: Violation, sample: string,
                    maxSamples: int, x: Violation)
    requires |keys| == |samples| && g.counts.Keys == g.samples.Keys && (x in g.counts <==> x in keys)
    requires x in g.counts ==> g.counts[x] == multiset(keys)[x] && g.samples[x] == Take(SamplesFor(keys, samples, x), maxSamples)
    requires x in AddRecord(g, k, sample, maxSamples).counts
    ensures var g' := AddRecord(g, k, sample, maxSamples);
      g'.counts[x] == multiset(keys + [k])[x]
      && g'.samples[x] == Take(SamplesFor(keys + [k], samples + [sample], x), maxSamples)
  {
    assert multiset(keys + [k]) == multiset(keys) + multiset{k};
    SamplesForSnoc(keys, samples, k, sample, x);
    if x == k {
      if k !in g.counts {
        assert multiset(keys)[k] == 0;
        SamplesForCount(keys, samples, k);
      }
      TakeSnoc(SamplesFor(keys, samples, k), sample, maxSamples);
    }
  }

  lemma CountStep(g: Groups, keys: seq<Violation>, samples: seq<string>, k: Violation, sample: string, maxSamples: int)
    requires |keys| == |samples| && Grouping(g, keys, samples, maxSamples)
    ensures var g' := AddRecord(g, k, sample, maxSamples);
      forall x :: x in g'.counts ==>
        g'.counts[x] == multiset(keys + [k])[x]
        && g'.samples[x] == Take(SamplesFor(keys + [k], samples + [sample], x), maxSamples)
  {
    var g' := AddRecord(g, k, sample, maxSamples);
    forall x | x in g'.counts
      ensures g'.counts[x] == multiset(keys + [k])[x]
              && g'.samples[x] == Take(SamplesFor(keys + [k], samples + [sample], x), maxSamples)
    {
      CountStepAt(g, keys, samples, k, sample, maxSamples, x);
    }
  }

  /** The grouping loop keeps `Grouping` from the first record to the last. */
  lemma {:induction false} GroupMeans(keys: seq<Violation>, samples: seq<string>, maxSamples: int)
    requires |keys| == |samples|
    ensures Grouping(Group(keys, samples, maxSamples), keys, samples, maxSamples)
    decreases |keys|
  {
    if keys != [] {
      var n := |keys| - 1;
      GroupMeans(keys[..n], samples[..n], maxSamples);
      assert keys == keys[..n] + [keys[n]] && samples == samples[..n] + [samples[n]];
      OrderStep(Group(keys[..n], samples[..n], maxSamples), keys[..n], samples[..n], keys[n], samples[n], maxSamples);
      CountStep(Group(keys[..n], samples[..n], maxSamples), keys[..n], samples[..n], keys[n], samples[n], maxSamples);
    }
  }

  // ---------------------------------------------------------------------------
  // Ordering

  function CountOf(counts: map<Violation, nat>, k: Violation): nat {
    if k in counts then counts[k] else 0
  }

  /** The sort key `(-count, table, field, reason)` compared as a tuple: `a` sorts
      strictly before `b`. */
  predicate Before(a: Violation, b: Violation, counts: map<Violation, nat>) {
    CountOf(counts, a) > CountOf(counts, b)
    || (CountOf(counts, a) == CountOf(counts, b)
        && (StrLess(a.table, b.table)
            || (a.table == b.table
                && (StrLess(a.field, b.field) || (a.field == b.field && StrLess(a.reason, b.reason))))))
  }

  lemma BeforeIrreflexive(a: Violation, counts: map<Violation, nat>)
    ensures !Before(a, a, counts)
  {
    StrLessIrreflexive(a.table);
    StrLessIrreflexive(a.field);
    StrLessIrreflexive(a.reason);
  }

  lemma BeforeAsymmetric(a: Violation, b: Violation, counts: map<Violation, nat>)
    requires Before(a, b, counts)
    ensures !Before(b, a, counts)
  {
    if CountOf(counts, a) == CountOf(counts, b) {
      if StrLess(a.table, b.table) {
        StrLessAsymmetric(a.table, b.table);
      } else if StrLess(a.field, b.field) {
        StrLessAsymmetric(a.field, b.field);
        StrLessIrreflexive(a.table);
      } else {
        StrLessAsymmetric(a.reason, b.reason);
        StrLessIrreflexive(a.table);
        StrLessIrreflexive(a.field);
      }
    }
  }

  lemma BeforeTransitive(a: Violation, b: Violation, c: Violation, counts: map<Violation, nat>)
    requires Before(a, b, counts) && Before(b, c, counts)
    ensures Before(a, c, counts)
  {
    if CountOf(counts, a) == CountOf(counts, b) == CountOf(counts, c) {
      if StrLess(a.table, b.table) && StrLess(b.table, c.table) {
        StrLessTransitive(a.table, b.table, c.table);
      } else if a.table == b.table == c.table {
        if StrLess(a.field, b.field) && StrLess(b.field, c.field) {
          StrLessTransitive(a.field, b.field, c.field);
        } else if a.field == b.field == c.field {
          StrLessTransitive(a.reason, b.reason, c.reason);
        }
      }
    }
  }

  lemma BeforeTotal(a: Violation, b: Violation, counts: map<Violation, nat>)
    requires a != b
    ensures Before(a, b, counts) || Before(b, a, counts)
  {
    if a.table != b.table {
      StrLessTotal(a.table, b.table);
    } else if a.field != b.field {
      StrLessTotal(a.field, b.field);
    } else {
      StrLessTotal(a.reason, b.reason);
    }
  }

  /** "Does not sort before" is transitive. */
  lemma NotBeforeTransitive(a: Violation, b: Violation, c: Violation, counts: map<Violation, nat>)
    requires !Before(a, b, counts) && !Before(b, c, counts)
    ensures !Before(a, c, counts)
  {
    if a != b && b != c {
      BeforeTotal(a, b, counts);
      BeforeTotal(b, c, counts);
      BeforeTransitive(c, b, a, counts);
      BeforeAsymmetric(c, a, counts);
    }
  }

  /** No violation sorts strictly before one that precedes it. */
  predicate Ordered(ks: seq<Violation>, counts: map<Violation, nat>) {
    forall i, j :: 0 <= i < j < |ks| ==> !Before(ks[j], ks[i], counts)
  }

  predicate NoneBefore(x: Violation, ks: seq<Violation>, counts: map<Violation, nat>) {
    forall y :: y in ks ==> !Before(y, x, counts)
  }

  lemma OrderedCons(x: Violation, ks: seq<Violation>, counts: map<Violation, nat>)
    requires NoneBefore(x, ks, counts) && Ordered(ks, counts)
    ensures Ordered([x] + ks, counts)
  {
    var r := [x] + ks;
    forall i, j | 0 <= i < j < |r| ensures !Before(r[j], r[i], counts) {
      if i == 0 {
        assert r[j] in ks;
      } else {
        assert r[i] == ks[i - 1] && r[j] == ks[j - 1];
      }
    }
  }

  lemma HeadBound(x: Violation, ks: seq<Violation>, counts: map<Violation, nat>)
    requires Ordered(ks, counts) && ks != [] && !Before(ks[0], x, counts)
    ensures NoneBefore(x, ks, counts)
  {
    forall y | y in ks ensures !Before(y, x, counts) {
      var k :| 0 <= k < |ks| && ks[k] == y;
      if k > 0 {
        NotBeforeTransitive(y, ks[0], x, counts);
      }
    }
  }

  function Insert(x: Violation, ks: seq<Violation>, counts: map<Violation, nat>): seq<Violation>
    decreases |ks|
  {
    if ks == [] || !Before(ks[0], x, counts) then [x] + ks
    else [ks[0]] + Insert(x, ks[1..], counts)
  }

  /** `sorted(grouped_counts, key=lambda key: (-count, *key))` */
  function SortKeys(ks: seq<Violation>, counts: map<Violation, nat>): seq<Violation>
    decreases |ks|
  {
    if ks == [] then [] else Insert(ks[0], SortKeys(ks[1..], counts), counts)
  }

  lemma {:induction false} InsertMeans(x: Violation, ks: seq<Violation>, counts: map<Violation, nat>)
    requires Ordered(ks, counts)
    ensures Ordered(Insert(x, ks, counts), counts) && multiset(Insert(x, ks, counts)) == multiset(ks) + multiset{x}
    decreases |ks|
  {
    if ks == [] {
    } else if !Before(ks[0], x, counts) {
      HeadBound(x, ks, counts);
      OrderedCons(x, ks, counts);
    } else {
      assert Ordered(ks[1..], counts);
      InsertMeans(x, ks[1..], counts);
      var rest := Insert(x, ks[1..], counts);
      assert ks == [ks[0]] + ks[1..];
      BeforeAsymmetric(ks[0], x, counts);
      assert NoneBefore(ks[0], rest, counts) by {
        forall y | y in rest ensures !Before(y, ks[0], counts) {
          assert y in multiset(ks[1..]) + multiset{x};
          if y != x {
            var k :| 0 <= k < |ks[1..]| && ks[1..][k] == y;
            assert ks[k + 1] == y;
          }
        }
      }
      OrderedCons(ks[0], rest, counts);
    }
  }

  lemma {:induction false} SortKeysMeans(ks: seq<Violation>, counts: map<Violation, nat>)
    ensures Ordered(SortKeys(ks, counts), counts) && multiset(SortKeys(ks, counts)) == multiset(ks)
    decreases |ks|
  {
    if ks != [] {
      SortKeysMeans(ks[1..], counts);
      InsertMeans(ks[0], SortKeys(ks[1..], counts), counts);
      assert ks == [ks[0]] + ks[1..];
    }
  }

  /** Sorting distinct violations orders them strictly and keeps exactly them. */
  lemma SortedDistinct(ks: seq<Violation>, counts: map<Violation, nat>)
    requires forall i, j :: 0 <= i < j < |ks| ==> ks[i] != ks[j]
    ensures var s := SortKeys(ks, counts);
      |s| == |ks| && (forall k :: k in s <==> k in ks)
      && forall i, j :: 0 <= i < j < |s| ==> Before(s[i], s[j], counts)
  {
    SortKeysMeans(ks, counts);
    var s := SortKeys(ks, counts);
    assert |s| == |ks| by { assert |multiset(s)| == |multiset(ks)|; }
    assert forall k :: k in s <==> k in multiset(ks);
    forall i, j | 0 <= i < j < |s| ensures Before(s[i], s[j], counts) {
      DistinctCountsOne(ks, s[i]);
      if s[i] == s[j] {
        TwoCopies(s, i, j);
      } else {
        BeforeTotal(s[i], s[j], counts);
      }
    }
  }

  lemma {:induction false} DistinctCountsOne(ks: seq<Violation>, k: Violation)
    requires forall i, j :: 0 <= i < j < |ks| ==> ks[i] != ks[j]
    ensures multiset(ks)[k] <= 1
    decreases |ks|
  {
    if ks != [] {
      assert ks == [ks[0]] + ks[1..];
      DistinctCountsOne(ks[1..], k);
      if ks[0] == k {
        forall j | 0 <= j < |ks[1..]| ensures ks[1..][j] != k {
          assert ks[1..][j] == ks[j + 1];
        }
        assert k !in ks[1..];
      }
    }
  }

  /** Two equal elements at different places count twice. */
  lemma TwoCopies(s: seq<Violation>, i: int, j: int)
    requires 0 <= i < j < |s| && s[i] == s[j]
    ensures multiset(s)[s[i]] >= 2
  {
    assert s == s[..j] + s[j..];
    assert s[i] == s[..j][i] && s[j] == s[j..][0];
    assert multiset(s) == multiset(s[..j]) + multiset(s[j..]);
  }

  // ---------------------------------------------------------------------------
  // The summary

  datatype TypeSummary = TypeSummary(sourceTable: string, field: string, reason: string, count: nat,
                                     samplesTruncated: bool, samples: seq<string>)

  datatype Summary = Summary(totalRecords: nat, typeCount: nat, typesTruncated: bool, types: seq<TypeSummary>)

  /** Python's `s[:n]`, where a negative `n` counts from the end. */
  function PyPrefix(s: seq<Violation>, n: int): (r: seq<Violation>)
    ensures n >= 0 ==> r == s[..Min(n, |s|)]
    ensures n < 0 ==> r == s[..Max(0, |s| + n)]
  {
    if n >= 0 then s[..Min(n, |s|)] else s[..Max(0, |s| + n)]
  }

  /** One reported type: its abbreviated texts, its count and its samples. */
  function TypeOf(k: Violation, g: Groups, limits: Limits): TypeSummary {
    var count := CountOf(g.counts, k);
    var samples := if k in g.samples then g.samples[k] else [];
    TypeSummary(Abbreviate(k.table, limits.maxTable), Abbreviate(k.field, limits.maxField),
                Abbreviate(k.reason, limits.maxReason), count, count > |samples|, samples)
  }

  function TypesOf(selected: seq<Violation>, g: Groups, limits: Limits): (r: seq<TypeSummary>)
    ensures |r| == |selected| && forall i :: 0 <= i < |selected| ==> r[i] == TypeOf(selected[i], g, limits)
    decreases |selected|
  {
    if selected == [] then [] else TypesOf(selected[..|selected| - 1], g, limits) + [TypeOf(selected[|selected| - 1], g, limits)]
  }

  function Grouped(records: seq<Record>, limits: Limits, o: Oracles): Groups {
    Group(KeysOf(records, o), SamplesOf(records, o, limits.maxRecordJson), limits.maxSamples)
  }

  /** The violations reported, most frequent first. */
  function SelectedKeys(records: seq<Record>, limits: Limits, o: Oracles): seq<Violation> {
    var g := Grouped(records, limits, o);
    PyPrefix(SortKeys(g.order, g.counts), limits.maxTypeCount)
  }

  /** `summarize_bad_records` as a value. */
  function Summarize(records: seq<Record>, limits: Limits, o: Oracles): (s: Summary)
    ensures records == [] ==> s == Summary(0, 0, false, [])
  {
    if records == [] then Summary(0, 0, false, [])
    else
      var g := Grouped(records, limits, o);
      var sorted := SortKeys(g.order, g.counts);
      var selected := PyPrefix(sorted, limits.maxTypeCount);
      Summary(|records|, |selected|, |sorted| > limits.maxTypeCount, TypesOf(selected, g, limits))
  }

  /** The summary counts every record, reports at most `maxTypeCount` violation types
      (for a non-negative limit) and says whether more existed. */
  lemma SummaryCounts(records: seq<Record>, limits: Limits, o: Oracles)
    requires records != []
    ensures var s := Summarize(records, limits, o);
      var keys := KeysOf(records, o);
      var g := Grouped(records, limits, o);
      var sel := SelectedKeys(records, limits, o);
      s.totalRecords == |records| && s.typeCount == |s.types| == |sel|
      && (forall k :: k in g.order <==> k in keys)
      && (forall i, j :: 0 <= i < j < |g.order| ==> g.order[i] != g.order[j])
      && (limits.maxTypeCount >= 0 ==> s.typeCount == Min(|g.order|, limits.maxTypeCount))
      && (s.typesTruncated <==> |g.order| > limits.maxTypeCount)
  {
    var g := Grouped(records, limits, o);
    GroupMeans(KeysOf(records, o), SamplesOf(records, o, limits.maxRecordJson), limits.maxSamples);
    SortedDistinct(g.order, g.counts);
  }

  /** The first `n` of the sorted distinct violations `ks` (Python's `[:n]`) are in
      strict sort order, and none of `ks` left out sorts before one of them. */
  lemma SelectionOrder(ks: seq<Violation>, counts: map<Violation, nat>, n: int)
    requires forall i, j :: 0 <= i < j < |ks| ==> ks[i] != ks[j]
    ensures var sel := PyPrefix(SortKeys(ks, counts), n);
      (forall i, j :: 0 <= i < j < |sel| ==> Before(sel[i], sel[j], counts))
      && (forall k, i :: k in ks && k !in sel && 0 <= i < |sel| ==> Before(sel[i], k, counts))
  {
    SortedDistinct(ks, counts);
    var sorted := SortKeys(ks, counts);
    var sel := PyPrefix(sorted, n);
    assert |sel| <= |sorted| && sel == sorted[..|sel|];
    forall i, j | 0 <= i < j < |sel| ensures Before(sel[i], sel[j], counts) {
      assert sel[i] == sorted[i] && sel[j] == sorted[j];
    }
    forall k, i | k in ks && k !in sel && 0 <= i < |sel| ensures Before(sel[i], k, counts) {
      assert k in sorted;
      var j :| 0 <= j < |sorted| && sorted[j] == k;
      assert forall t :: 0 <= t < |sel| ==> sel[t] == sorted[t];
      assert sel[i] == sorted[i];
    }
  }

  /** The reported types are reported strictly in the order of the sort key, and no
      violation left out sorts before a reported one. */
  lemma SummaryOrder(records: seq<Record>, limits: Limits, o: Oracles)
    requires records != []
    ensures var s := Summarize(records, limits, o);
      var keys := KeysOf(records, o);
      var g := Grouped(records, limits, o);
      var sel := SelectedKeys(records, limits, o);
      |s.types| == |sel|
      && (forall i, j :: 0 <= i < j < |sel| ==> Before(sel[i], sel[j], g.counts) && s.types[i].count >= s.types[j].count)
      && (forall k, i :: k in keys && k !in sel && 0 <= i < |sel| ==> Before(sel[i], k, g.counts))
  {
    var g := Grouped(records, limits, o);
    GroupedOrder(records, limits, o);
    SelectionOrder(g.order, g.counts, limits.maxTypeCount);
    var sel := SelectedKeys(records, limits, o);
    assert sel == PyPrefix(SortKeys(g.order, g.counts), limits.maxTypeCount);
    var types := TypesOf(sel, g, limits);
    assert Summarize(records, limits, o).types == types;
    forall i, j | 0 <= i < j < |sel| ensures types[i].count >= types[j].count {
      assert Before(sel[i], sel[j], g.counts);
      assert types[i].count == CountOf(g.counts, sel[i]) && types[j].count == CountOf(g.counts, sel[j]);
    }
  }

  /** The grouping's order lists each violation of the records once. */
  lemma GroupedOrder(records: seq<Record>, limits: Limits, o: Oracles)
    ensures var g := Grouped(records, limits, o);
      (forall k :: k in g.order <==> k in KeysOf(records, o))
      && (forall i, j :: 0 <= i < j < |g.order| ==> g.order[i] != g.order[j])
  {
    GroupMeans(KeysOf(records, o), SamplesOf(records, o, limits.maxRecordJson), limits.maxSamples);
  }

  /** Each reported type is a violation of some record, grouped before any
      abbreviation; its count is the number of its records and its samples are the first
      `maxSamples` of theirs, truncation being flagged exactly when samples were dropped. */
  lemma SummarySamples(records: seq<Record>, limits: Limits, o: Oracles)
    requires records != []
    ensures var s := Summarize(records, limits, o);
      var keys := KeysOf(records, o);
      var sel := SelectedKeys(records, limits, o);
      |s.types| == |sel|
      && forall i :: 0 <= i < |sel| ==>
            sel[i] in keys && s.types[i].count == multiset(keys)[sel[i]] > 0
            && s.types[i].samples == Take(SamplesFor(keys, SamplesOf(records, o, limits.maxRecordJson), sel[i]), limits.maxSamples)
            && |s.types[i].samples| == Min(s.types[i].count, Max(0, limits.maxSamples))
            && (s.types[i].samplesTruncated <==> s.types[i].count > |s.types[i].samples|)
  {
    var g := Grouped(records, limits, o);
    GroupedOrder(records, limits, o);
    SelectionMembers(g.order, g.counts, limits.maxTypeCount);
    var sel := SelectedKeys(records, limits, o);
    assert sel == PyPrefix(SortKeys(g.order, g.counts), limits.maxTypeCount);
    var types := TypesOf(sel, g, limits);
    assert Summarize(records, limits, o).types == types;
    forall i | 0 <= i < |sel|
      ensures var keys := KeysOf(records, o);
        sel[i] in keys && types[i].count == multiset(keys)[sel[i]] > 0
        && types[i].samples == Take(SamplesFor(keys, SamplesOf(records, o, limits.maxRecordJson), sel[i]), limits.maxSamples)
        && |types[i].samples| == Min(types[i].count, Max(0, limits.maxSamples))
        && (types[i].samplesTruncated <==> types[i].count > |types[i].samples|)
    {
      GroupedCounts(records, limits, o, sel[i]);
      assert types[i] == TypeOf(sel[i], g, limits);
    }
  }

  /** The selection is drawn from the violations sorted. */
  lemma SelectionMembers(ks: seq<Violation>, counts: map<Violation, nat>, n: int)
    requires forall i, j :: 0 <= i < j < |ks| ==> ks[i] != ks[j]
    ensures var sel := PyPrefix(SortKeys(ks, counts), n);
      forall i :: 0 <= i < |sel| ==> sel[i] in ks
  {
    SortedDistinct(ks, counts);
    var sorted := SortKeys(ks, counts);
    var sel := PyPrefix(sorted, n);
    assert forall t :: 0 <= t < |sel| ==> sel[t] == sorted[t];
  }

  /** A violation some record has is grouped with its count, which is positive, and
      with the first `maxSamples` of its records' samples. */
  lemma GroupedCounts(records: seq<Record>, limits: Limits, o: Oracles, k: Violation)
    requires k in KeysOf(records, o)
    ensures var keys := KeysOf(records, o);
      var samples := SamplesOf(records, o, limits.maxRecordJson);
      var g := Grouped(records, limits, o);
      k in g.counts && k in g.samples && g.counts[k] == multiset(keys)[k] > 0
      && |SamplesFor(keys, samples, k)| == multiset(keys)[k]
      && g.samples[k] == Take(SamplesFor(keys, samples, k), limits.maxSamples)
  {
    var keys := KeysOf(records, o);
    var samples := SamplesOf(records, o, limits.maxRecordJson);
    GroupMeans(keys, samples, limits.maxSamples);
    SamplesForCount(keys, samples, k);
  }

  /** `summarize_bad_records` */
  method SummarizeBadRecords(records: seq<Record>, limits: Limits, o: Oracles) returns (s: Summary)
    ensures s == Summarize(records, limits, o)
  {
    if records == [] {
      return Summary(0, 0, false, []);
    }
    var g := GroupRecords(records, limits, o);
    var sorted := SortKeys(g.order, g.counts);
    var selected := PyPrefix(sorted, limits.maxTypeCount);
    var types := BuildTypes(selected, g, limits);
    s := Summary(|records|, |types|, |sorted| > limits.maxTypeCount, types);
  }

  /** The grouping loop of `summarize_bad_records`. */
  method GroupRecords(records: seq<Record>, limits: Limits, o: Oracles) returns (g: Groups)
    ensures g == Grouped(records, limits, o)
  {
    ghost var keys := KeysOf(records, o);
    ghost var samples := SamplesOf(records, o, limits.maxRecordJson);
    var counts: map<Violation, nat> := map[];
    var grouped: map<Violation, seq<string>> := map[];
    var order: seq<Violation> := [];
    var i := 0;
    while i < |records|
      invariant 0 <= i <= |records|
      invariant Group(keys[..i], samples[..i], limits.maxSamples) == Groups(counts, grouped, order)
    {
      var record := records[i];
      var table := TableText(record, o.repr);
      var field, reason := ExtractFieldAndReason(Get(record, "reason"), o);
      var key := Violation(table, field, reason);
      assert key == keys[i];
      counts, grouped, order := AddOne(counts, grouped, order, key, SampleOf(record, o, limits.maxRecordJson), limits.maxSamples);
      GroupPrefix(keys, samples, i, limits.maxSamples);
      i := i + 1;
    }
    assert keys[..i] == keys && samples[..i] == samples;
    g := Groups(counts, grouped, order);
  }

  /** One pass of the grouping loop. */
  method AddOne(counts: map<Violation, nat>, grouped: map<Violation, seq<string>>, order: seq<Violation>,
                key: Violation, sample: string, maxSamples: int)
    returns (counts': map<Violation, nat>, grouped': map<Violation, seq<string>>, order': seq<Violation>)
    ensures Groups(counts', grouped', order') == AddRecord(Groups(counts, grouped, order), key, sample, maxSamples)
  {
    order' := if key !in counts then order + [key] else order;
    counts' := counts[key := (if key in counts then counts[key] else 0) + 1];
    var kept := if key in grouped then grouped[key] else [];
    if |kept| < maxSamples {
      kept := kept + [sample];
    }
    grouped' := grouped[key := kept];
  }

  lemma GroupPrefix(keys: seq<Violation>, samples: seq<string>, i: int, maxSamples: int)
    requires |keys| == |samples| && 0 <= i < |keys|
    ensures Group(keys[..i + 1], samples[..i + 1], maxSamples)
            == AddRecord(Group(keys[..i], samples[..i], maxSamples), keys[i], samples[i], maxSamples)
  {
    assert keys[..i + 1][..i] == keys[..i] && samples[..i + 1][..i] == samples[..i];
  }

  /** The reporting loop of `summarize_bad_records`. */
  method BuildTypes(selected: seq<Violation>, g: Groups, limits: Limits) returns (types: seq<TypeSummary>)
    ensures types == TypesOf(selected, g, limits)
  {
    types := [];
    var j := 0;
    while j < |selected|
      invariant 0 <= j <= |selected|
      invariant types == TypesOf(selected[..j], g, limits)
    {
      var key := selected[j];
      var count := CountOf(g.counts, key);
      var kept := if key in g.samples then g.samples[key] else [];
      types := types + [TypeSummary(Abbreviate(key.table, limits.maxTable), Abbreviate(key.field, limits.maxField),
                                    Abbreviate(key.reason, limits.maxReason), count, count > |kept|, kept)];
      assert selected[..j + 1][..j] == selected[..j];
      j := j + 1;
    }
    assert selected[..j] == selected;
  }
}

/** The runtime settings loader: the required environment keys, the target-pipeline
    list (a comma-separated string or a list of strings) and the daily LLM call cap. */
module RuntimeConfig {
  import opened Common

  const DEFAULT_CHECKPOINT_DB_PATH := "checkpoints/agent.db"
  const DEFAULT_LLM_DAILY_CAP := 30

  const TARGET_PIPELINES_KEY := "TARGET_PIPELINES"
  const LANGFUSE_HOST_KEY := "LANGFUSE_HOST"
  const CHECKPOINT_DB_PATH_KEY := "CHECKPOINT_DB_PATH"
  const LLM_DAILY_CAP_KEY := "LLM_DAILY_CAP"

  /** The keys that must be present and non-blank, in the order they are reported. */
  const REQUIRED_KEYS := [TARGET_PIPELINES_KEY, LANGFUSE_HOST_KEY]

  const NOT_A_LIST := "TARGET_PIPELINES must be a comma-separated string"
  const NON_STRING_ITEM := "TARGET_PIPELINES must only contain strings"
  const EMPTY_ITEM := "TARGET_PIPELINES contains empty pipeline name"
  const NO_ITEM := "TARGET_PIPELINES must contain at least one pipeline"
  const BAD_CAP := "Invalid runtime settings: LLM_DAILY_CAP must be a positive integer"

  datatype RuntimeSettings = RuntimeSettings(
    targetPipelines: seq<string>,
    checkpointDbPath: string,
    llmDailyCap: nat,
    langfuseHost: string)

  // ---------------------------------------------------------------------------
  // str.split

  /** `s.split(c)` for a one-character separator: always at least one piece. */
  function Split(s: string, c: char): (r: seq<string>)
    ensures |r| >= 1
    decreases |s|
  {
    match IndexFrom(s, c, 0)
    case None => [s]
    case Some(i) => [s[..i]] + Split(s[i + 1..], c)
  }

  lemma {:induction false} SplitPiecesLackSeparator(s: string, c: char)
    ensures forall k :: 0 <= k < |Split(s, c)| ==> c !in Split(s, c)[k]
    decreases |s|
  {
    match IndexFrom(s, c, 0)
    case None =>
    case Some(i) =>
      SplitPiecesLackSeparator(s[i + 1..], c);
      var rest := Split(s[i + 1..], c);
      assert Split(s, c) == [s[..i]] + rest;
      forall k | 0 <= k < |Split(s, c)| ensures c !in Split(s, c)[k] {
        if k > 0 { assert Split(s, c)[k] == rest[k - 1]; }
      }
  }

  /** Joining the pieces with the separator gives back the input. */
  lemma {:induction false} SplitJoin(s: string, c: char)
    ensures Join(Split(s, c), [c]) == s
    decreases |s|
  {
    match IndexFrom(s, c, 0)
    case None =>
    case Some(i) =>
      SplitJoin(s[i + 1..], c);
      var rest := Split(s[i + 1..], c);
      assert Split(s, c) == [s[..i]] + rest;
      assert Split(s, c)[1..] == rest;
      assert s == s[..i] + [c] + s[i + 1..];
  }

  /** Splitting a join of pieces free of the separator gives back the pieces. */
  lemma {:induction false} JoinSplit(xs: seq<string>, c: char)
    requires xs != []
    requires forall k :: 0 <= k < |xs| ==> c !in xs[k]
    ensures Split(Join(xs, [c]), c) == xs
    decreases |xs|
  {
    var s := Join(xs, [c]);
    if |xs| == 1 {
      assert s == xs[0];
      NoSeparatorNoIndex(xs[0], c);
    } else {
      var tail := Join(xs[1..], [c]);
      assert s == xs[0] + [c] + tail;
      SeparatorAfter(xs[0], c, tail);
      assert s[..|xs[0]|] == xs[0];
      assert s[|xs[0]| + 1..] == tail;
      JoinSplit(xs[1..], c);
      assert xs == [xs[0]] + xs[1..];
    }
  }

  lemma NoSeparatorNoIndex(s: string, c: char)
    requires c !in s
    ensures IndexFrom(s, c, 0) == None
  {
  }

  lemma SeparatorAfter(a: string, c: char, b: string)
    requires c !in a
    ensures IndexFrom(a + [c] + b, c, 0) == Some(|a|)
  {
    var s := a + [c] + b;
    assert s[|a|] == c;
    assert forall x :: 0 <= x < |a| ==> s[x] == a[x];
  }

  // ---------------------------------------------------------------------------
  // Target pipelines

  function StripAll(xs: seq<string>): (r: seq<string>)
    ensures |r| == |xs| && forall k :: 0 <= k < |xs| ==> r[k] == Strip(xs[k])
  {
    if xs == [] then [] else [Strip(xs[0])] + StripAll(xs[1..])
  }

  /** `[item for item in entries if item]` */
  function NonEmpty(xs: seq<string>): (r: seq<string>)
    ensures |r| <= |xs|
    ensures forall k :: 0 <= k < |r| ==> r[k] != ""
  {
    if xs == [] then [] else (if xs[0] != "" then [xs[0]] else []) + NonEmpty(xs[1..])
  }

  /** Filtering keeps every item exactly when no item is empty. */
  lemma {:induction false} NonEmptyKeepsAll(xs: seq<string>)
    ensures |NonEmpty(xs)| == |xs| <==> forall k :: 0 <= k < |xs| ==> xs[k] != ""
    ensures (forall k :: 0 <= k < |xs| ==> xs[k] != "") ==> NonEmpty(xs) == xs
  {
    if xs != [] {
      NonEmptyKeepsAll(xs[1..]);
      assert forall k :: 1 <= k < |xs| ==> xs[k] == xs[1..][k - 1];
      assert xs == [xs[0]] + xs[1..];
    }
  }

  predicate AllStrings(items: seq<Json>) {
    forall k :: 0 <= k < |items| ==> items[k].JStr?
  }

  function Strs(items: seq<Json>): (r: seq<string>)
    requires AllStrings(items)
    ensures |r| == |items| && forall k :: 0 <= k < |items| ==> r[k] == items[k].s
  {
    if items == [] then [] else [items[0].s] + Strs(items[1..])
  }

  /** The stripped entries the validator collects, or the shape error it raises first. */
  function Entries(value: Json): Result<seq<string>> {
    match value
    case JStr(s) => Ok(StripAll(Split(s, ',')))
    case JList(items) =>
      if AllStrings(items) then Ok(StripAll(Strs(items))) else Err(NON_STRING_ITEM)
    case _ => Err(NOT_A_LIST)
  }

  /** The validator's outcome on one input. */
  function TargetPipelinesSpec(value: Json): Result<seq<string>> {
    match Entries(value)
    case Err(e) => Err(e)
    case Ok(entries) =>
      if |NonEmpty(entries)| != |entries| then Err(EMPTY_ITEM)
      else if entries == [] then Err(NO_ITEM)
      else Ok(entries)
  }

  /** The `target_pipelines` validator: a comma string is split, a list is checked item
      by item; each entry is stripped, and an empty entry or an empty result raises. */
  method ParseTargetPipelines(value: Json) returns (r: Result<seq<string>>)
    ensures r == TargetPipelinesSpec(value)
  {
    var entries: Result<seq<string>>;
    match value {
      case JStr(s) => entries := Ok(StripAll(Split(s, ',')));
      case JList(items) => entries := CollectEntries(items);
      case _ => entries := Err(NOT_A_LIST);
    }
    if entries.Err? {
      return Err(entries.error);
    }
    var cleaned := NonEmpty(entries.value);
    if |cleaned| != |entries.value| {
      return Err(EMPTY_ITEM);
    }
    if cleaned == [] {
      return Err(NO_ITEM);
    }
    NonEmptyKeepsAll(entries.value);
    r := Ok(cleaned);
  }

  /** The list branch: every item must be a string; each is stripped. */
  method CollectEntries(items: seq<Json>) returns (r: Result<seq<string>>)
    ensures r == Entries(JList(items))
  {
    var entries := [];
    var i := 0;
    while i < |items|
      invariant 0 <= i <= |items|
      invariant AllStrings(items[..i]) && entries == StripAll(Strs(items[..i]))
    {
      if !items[i].JStr? {
        assert !AllStrings(items);
        return Err(NON_STRING_ITEM);
      }
      assert items[..i + 1] == items[..i] + [items[i]];
      entries := entries + [Strip(items[i].s)];
      i := i + 1;
    }
    assert items[..i] == items;
    r := Ok(entries);
  }

  lemma StripIdempotent(s: string)
    ensures Strip(Strip(s)) == Strip(s)
  {
    StripShape(s);
    var r := Strip(s);
    if r != [] { StripOfNonSpaceEnds(r); }
  }

  /** An accepted list is non-empty and each entry is a non-empty stripped name; a
      rejection is one of the four messages. */
  lemma TargetPipelinesAccepted(value: Json)
    ensures var r := TargetPipelinesSpec(value);
      (r.Ok? ==> r.value != [] && forall k :: 0 <= k < |r.value| ==> r.value[k] != "" && Strip(r.value[k]) == r.value[k])
      && (r.Err? ==> r.error in {NOT_A_LIST, NON_STRING_ITEM, EMPTY_ITEM, NO_ITEM})
  {
    match Entries(value) {
      case Err(e) =>
      case Ok(entries) =>
        NonEmptyKeepsAll(entries);
        if TargetPipelinesSpec(value).Ok? {
          forall k | 0 <= k < |entries| ensures Strip(entries[k]) == entries[k] {
            var raw := if value.JStr? then Split(value.s, ',') else Strs(value.items);
            StripIdempotent(raw[k]);
          }
        }
    }
  }

  /** Names without commas or surrounding whitespace survive both input forms. */
  lemma {:induction false} TargetPipelinesRoundTrip(xs: seq<string>)
    requires xs != []
    requires forall k :: 0 <= k < |xs| ==> xs[k] != "" && ',' !in xs[k] && Strip(xs[k]) == xs[k]
    ensures TargetPipelinesSpec(JStr(Join(xs, ","))) == Ok(xs)
    ensures TargetPipelinesSpec(JList(seq(|xs|, k requires 0 <= k < |xs| => JStr(xs[k])))) == Ok(xs)
  {
    JoinSplit(xs, ',');
    assert [','] == ",";
    assert StripAll(xs) == xs;
    NonEmptyKeepsAll(xs);
    var items := seq(|xs|, k requires 0 <= k < |xs| => JStr(xs[k]));
    assert Strs(items) == xs;
  }

  // ---------------------------------------------------------------------------
  // Daily cap and the loader

  /** `_parse_llm_daily_cap`: absent gives the default; otherwise `int(raw)` must be
      a positive integer. */
  function ParseLlmDailyCap(raw: Option<string>): (r: Result<nat>)
    ensures raw.None? ==> r == Ok(DEFAULT_LLM_DAILY_CAP)
    ensures raw.Some? ==> (r.Ok? <==> ParseInt(Strip(raw.value)).Some? && ParseInt(Strip(raw.value)).value > 0)
    ensures raw.Some? && r.Ok? ==> r.value == ParseInt(Strip(raw.value)).value && r.value > 0
    ensures r.Err? ==> r.error == BAD_CAP
  {
    match raw
    case None => Ok(DEFAULT_LLM_DAILY_CAP)
    case Some(text) =>
      match ParseInt(Strip(text))
      case None => Err(BAD_CAP)
      case Some(v) => if v <= 0 then Err(BAD_CAP) else Ok(v)
  }

  /** Every positive cap written in decimal reads back as itself. */
  lemma DailyCapRoundTrip(n: int)
    requires n > 0
    ensures ParseLlmDailyCap(Some(IntToString(n))) == Ok(n)
  {
    IntToStringParses(n);
    var t := IntToString(n);
    assert !IsSpace(t[0]) && !IsSpace(t[|t| - 1]) by {
      NatToStringValue(n);
    }
    StripOfNonSpaceEnds(t);
  }

  /** `env.get(key, "")` */
  function EnvGet(env: map<string, string>, key: string): string {
    if key in env then env[key] else ""
  }

  /** The keys of `keys`, in order, that are absent or blank in `env`. */
  function MissingKeys(keys: seq<string>, env: map<string, string>): (r: seq<string>)
    ensures forall k :: k in r <==> k in keys && IsBlank(EnvGet(env, k))
  {
    if keys == [] then []
    else (if IsBlank(EnvGet(env, keys[0])) then [keys[0]] else []) + MissingKeys(keys[1..], env)
  }

  /** `load_runtime_settings`: report the missing required keys, then read the cap,
      then validate the target pipelines. */
  method LoadRuntimeSettings(env: map<string, string>) returns (r: Result<RuntimeSettings>)
    ensures var missing := MissingKeys(REQUIRED_KEYS, env);
      missing != [] ==> r == Err("Missing required runtime settings: " + Join(missing, ", "))
    ensures MissingKeys(REQUIRED_KEYS, env) == [] ==>
      TARGET_PIPELINES_KEY in env && LANGFUSE_HOST_KEY in env &&
      var cap := ParseLlmDailyCap(if LLM_DAILY_CAP_KEY in env then Some(env[LLM_DAILY_CAP_KEY]) else None);
      var targets := TargetPipelinesSpec(JStr(env[TARGET_PIPELINES_KEY]));
      (cap.Err? ==> r == Err(cap.error))
      && (cap.Ok? && targets.Err? ==> r == Err("Invalid runtime settings: " + targets.error))
      && (cap.Ok? && targets.Ok? ==>
            r == Ok(RuntimeSettings(targets.value, if CHECKPOINT_DB_PATH_KEY in env then env[CHECKPOINT_DB_PATH_KEY] else DEFAULT_CHECKPOINT_DB_PATH,
                                    cap.value, env[LANGFUSE_HOST_KEY])))
  {
    var missing := MissingKeys(REQUIRED_KEYS, env);
    if missing != [] {
      return Err("Missing required runtime settings: " + Join(missing, ", "));
    }
    assert TARGET_PIPELINES_KEY in REQUIRED_KEYS && LANGFUSE_HOST_KEY in REQUIRED_KEYS;
    var path := if CHECKPOINT_DB_PATH_KEY in env then env[CHECKPOINT_DB_PATH_KEY] else DEFAULT_CHECKPOINT_DB_PATH;
    var cap := ParseLlmDailyCap(if LLM_DAILY_CAP_KEY in env then Some(env[LLM_DAILY_CAP_KEY]) else None);
    if cap.Err? {
      return Err(cap.error);
    }
    var targets := ParseTargetPipelines(JStr(env[TARGET_PIPELINES_KEY]));
    if targets.Err? {
      return Err("Invalid runtime settings: " + targets.error);
    }
    r := Ok(RuntimeSettings(targets.value, path, cap.value, env[LANGFUSE_HOST_KEY]));
  }
}

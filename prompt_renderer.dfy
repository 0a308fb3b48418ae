/** The issue prompt renderer: `{{ key }}` placeholders of a template are filled from a
    payload of the seven required keys; a required placeholder without a value, or any
    placeholder left after substitution, is an error. */
module PromptRenderer {
  import opened Common
  import opened Models

  const MANIFEST_ID := "manifest_id"
  const TASK_ID := "task_id"
  const GATE_ID := "gate_id"
  const EPIC_ID := "epic_id"
  const TITLE := "title"
  const DEPENDS_ON := "depends_on"
  const DOD_CHECKLIST_FULL := "dod_checklist_full"
  const REQUIRED_KEYS: set<string> := {MANIFEST_ID, TASK_ID, GATE_ID, EPIC_ID, TITLE, DEPENDS_ON, DOD_CHECKLIST_FULL}

  const MISSING_PREFIX := "Missing values for placeholders: "
  const UNRESOLVED_PREFIX := "Unresolved placeholders remain: "

  // ---------------------------------------------------------------------------
  // The placeholder pattern `{{\s*([a-zA-Z0-9_]+)\s*}}`

  predicate IsNameChar(c: char) { IsAsciiAlnum(c) || c == '_' }

  /** A placeholder name: one or more of `[a-zA-Z0-9_]`. */
  predicate IsName(k: string) {
    |k| > 0 && forall i :: 0 <= i < |k| ==> IsNameChar(k[i])
  }

  /** The first index at or after `i` that does not hold whitespace. */
  function SkipSpace(t: string, i: nat): (r: nat)
    requires i <= |t|
    ensures i <= r <= |t|
    decreases |t| - i
  {
    if i < |t| && IsSpace(t[i]) then SkipSpace(t, i + 1) else i
  }

  /** The first index at or after `i` that does not hold a name character. */
  function SkipName(t: string, i: nat): (r: nat)
    requires i <= |t|
    ensures i <= r <= |t|
    decreases |t| - i
  {
    if i < |t| && IsNameChar(t[i]) then SkipName(t, i + 1) else i
  }

  /** The placeholder pattern anchored at the start of `t`: the captured name and the
      length of the match. Whitespace and name characters are disjoint, so the greedy
      match is the only one and no backtracking can produce another. */
  function Placeholder(t: string): (r: Option<(string, nat)>)
    ensures r.Some? ==> 2 < r.value.1 <= |t|
  {
    if |t| < 2 || t[0] != '{' || t[1] != '{' then None
    else
      var a := SkipSpace(t, 2);
      var b := SkipName(t, a);
      var c := SkipSpace(t, b);
      if a < b && c + 2 <= |t| && t[c] == '}' && t[c + 1] == '}' then Some((t[a..b], c + 2)) else None
  }

  /** The pattern `{{\s*KEY\s*}}` for one literal key, anchored at the start of `t`:
      the length of the match. */
  function KeyMatch(t: string, key: string): (r: Option<nat>)
    ensures r.Some? ==> 2 <= r.value <= |t|
  {
    if |t| < 2 || t[0] != '{' || t[1] != '{' then None
    else
      var a := SkipSpace(t, 2);
      if a + |key| <= |t| && t[a..a + |key|] == key then
        var c := SkipSpace(t, a + |key|);
        if c + 2 <= |t| && t[c] == '}' && t[c + 1] == '}' then Some(c + 2) else None
      else None
  }

  /** `PLACEHOLDER_PATTERN.findall(t)`: the names of the non-overlapping matches, left
      to right. */
  function FindAll(t: string): seq<string>
    decreases |t|
  {
    if t == [] then []
    else match Placeholder(t)
      case Some((name, len)) => [name] + FindAll(t[len..])
      case None => FindAll(t[1..])
  }

  /** `set(PLACEHOLDER_PATTERN.findall(t))` */
  function Names(t: string): set<string> {
    set n | n in FindAll(t)
  }

  /** `re.sub(r"{{\s*" + key + r"\s*}}", v, t)`, the value taken literally. */
  function Substitute(t: string, key: string, v: string): string
    decreases |t|
  {
    if t == [] then []
    else match KeyMatch(t, key)
      case Some(len) => v + Substitute(t[len..], key, v)
      case None => [t[0]] + Substitute(t[1..], key, v)
  }

  /** A placeholder named `m` starts somewhere in `t`: the meaning of the pattern,
      independent of how a scan visits the text. */
  ghost predicate HasPlaceholder(t: string, m: string) {
    exists d :: 0 <= d <= |t| && Placeholder(t[d..]).Some? && Placeholder(t[d..]).value.0 == m
  }

  // ---------------------------------------------------------------------------
  // Rendering

  /** The substitution loop over `REQUIRED_KEYS` in the order `order` in which the set
      is iterated: each key with a value is replaced in turn. */
  function ApplyValues(t: string, order: seq<string>, payload: map<string, string>): string
    decreases |order|
  {
    if order == [] then t
    else ApplyValues(if order[0] in payload then Substitute(t, order[0], payload[order[0]]) else t, order[1..], payload)
  }

  /** `order` lists every required key exactly once. */
  predicate IsKeyOrder(order: seq<string>) {
    (forall i, j :: 0 <= i < j < |order| ==> order[i] != order[j])
    && (forall k :: k in order ==> k in REQUIRED_KEYS) && (forall k :: k in REQUIRED_KEYS ==> k in order)
  }

  /** The outcome `render_prompt` should have. */
  ghost function RenderSpec(template: string, payload: map<string, string>, order: seq<string>): Result<string> {
    var missing := (Names(template) * REQUIRED_KEYS) - payload.Keys;
    if missing != {} then Err(MISSING_PREFIX + Join(SortedSet(missing), ", "))
    else
      var rendered := ApplyValues(template, order, payload);
      if Names(rendered) != {} then Err(UNRESOLVED_PREFIX + Join(SortedSet(Names(rendered)), ", "))
      else Ok(rendered)
  }

  /** `render_prompt` */
  method RenderPrompt(template: string, payload: map<string, string>, order: seq<string>) returns (r: Result<string>)
    ensures r == RenderSpec(template, payload, order)
  {
    var found := FindAll(template);
    var inTemplate := set n | n in found;
    var missingSet := (inTemplate * REQUIRED_KEYS) - payload.Keys;
    if missingSet != {} {
      var missing := SortStrings(missingSet);
      return Err(MISSING_PREFIX + Join(missing, ", "));
    }
    var rendered := template;
    var i := 0;
    while i < |order|
      invariant 0 <= i <= |order|
      invariant ApplyValues(template, order, payload) == ApplyValues(rendered, order[i..], payload)
    {
      var key := order[i];
      assert order[i..][0] == key && order[i..][1..] == order[i + 1..];
      if key in payload {
        rendered := Substitute(rendered, key, payload[key]);
      }
      i := i + 1;
    }
    var left := FindAll(rendered);
    var unresolvedSet := set n | n in left;
    if unresolvedSet != {} {
      var unresolved := SortStrings(unresolvedSet);
      return Err(UNRESOLVED_PREFIX + Join(unresolved, ", "));
    }
    r := Ok(rendered);
  }

  /** The payload `render_issue_prompt` builds from an issue. */
  function IssuePayload(issue: IssueContext): (p: map<string, string>)
    ensures p.Keys == REQUIRED_KEYS
  {
    map[MANIFEST_ID := issue.manifestId, TASK_ID := issue.taskId, GATE_ID := issue.gateId,
        EPIC_ID := issue.epicId, TITLE := issue.title, DEPENDS_ON := issue.dependsOn,
        DOD_CHECKLIST_FULL := issue.dodChecklistFull]
  }

  /** `render_issue_prompt` */
  method RenderIssuePrompt(template: string, issue: IssueContext, order: seq<string>) returns (r: Result<string>)
    ensures r == RenderSpec(template, IssuePayload(issue), order)
  {
    r := RenderPrompt(template, IssuePayload(issue), order);
  }

  // ---------------------------------------------------------------------------
  // Facts about the pattern

  lemma {:induction false} SkipSpaceSpan(t: string, i: nat)
    requires i <= |t|
    ensures forall k :: i <= k < SkipSpace(t, i) ==> IsSpace(t[k])
    ensures SkipSpace(t, i) < |t| ==> !IsSpace(t[SkipSpace(t, i)])
    decreases |t| - i
  {
    if i < |t| && IsSpace(t[i]) {
      SkipSpaceSpan(t, i + 1);
    }
  }

  lemma {:induction false} SkipNameSpan(t: string, i: nat)
    requires i <= |t|
    ensures forall k :: i <= k < SkipName(t, i) ==> IsNameChar(t[k])
    ensures SkipName(t, i) < |t| ==> !IsNameChar(t[SkipName(t, i)])
    decreases |t| - i
  {
    if i < |t| && IsNameChar(t[i]) {
      SkipNameSpan(t, i + 1);
    }
  }

  lemma {:induction false} SkipNameAtLeast(t: string, i: nat, j: nat)
    requires i <= j <= |t|
    requires forall k :: i <= k < j ==> IsNameChar(t[k])
    ensures SkipName(t, i) >= j
    decreases j - i
  {
    if i < j {
      SkipNameAtLeast(t, i + 1, j);
    }
  }

  /** Scanning depends only on the characters it looks at. */
  lemma {:induction false} SkipSpaceLocal(t: string, u: string, i: nat, m: nat)
    requires i <= m <= |t| && m <= |u| && forall k :: 0 <= k < m ==> t[k] == u[k]
    requires SkipSpace(t, i) < m
    ensures SkipSpace(u, i) == SkipSpace(t, i)
    decreases |t| - i
  {
    if IsSpace(t[i]) {
      SkipSpaceLocal(t, u, i + 1, m);
    }
  }

  lemma {:induction false} SkipNameLocal(t: string, u: string, i: nat, m: nat)
    requires i <= m <= |t| && m <= |u| && forall k :: 0 <= k < m ==> t[k] == u[k]
    requires SkipName(t, i) < m
    ensures SkipName(u, i) == SkipName(t, i)
    decreases |t| - i
  {
    if IsNameChar(t[i]) {
      SkipNameLocal(t, u, i + 1, m);
    }
  }

  lemma NameCharNotSpace(c: char)
    requires IsNameChar(c)
    ensures !IsSpace(c) && c != '{' && c != '}'
  {
  }

  /** Inside a match, past the opening braces, there is no `{`. */
  lemma PlaceholderNoBrace(t: string)
    requires Placeholder(t).Some?
    ensures forall k :: 2 <= k < Placeholder(t).value.1 ==> t[k] != '{'
  {
    var a := SkipSpace(t, 2);
    var b := SkipName(t, a);
    var c := SkipSpace(t, b);
    SkipSpaceSpan(t, 2);
    SkipNameSpan(t, a);
    SkipSpaceSpan(t, b);
    forall k | a <= k < b
      ensures t[k] != '{'
    {
      NameCharNotSpace(t[k]);
    }
  }

  /** Two matches never overlap: no match starts strictly inside another. */
  lemma NonOverlap(t: string, d: nat)
    requires Placeholder(t).Some? && 0 < d < Placeholder(t).value.1
    ensures Placeholder(t[d..]).None?
  {
    PlaceholderNoBrace(t);
    if d == 1 {
      assert t[d..][1] == t[2];
    } else {
      assert t[d..][0] == t[d];
    }
  }

  /** A complete match does not look past its own end. */
  lemma PlaceholderLocal(t: string, x: string)
    requires Placeholder(t).Some?
    ensures Placeholder(t[..Placeholder(t).value.1] + x) == Placeholder(t)
  {
    var len := Placeholder(t).value.1;
    var u := t[..len] + x;
    assert u[..len] == t[..len];
    PlaceholderAgree(t, u, len);
  }

  lemma PlaceholderAgree(t: string, u: string, len: nat)
    requires Placeholder(t).Some? && len == Placeholder(t).value.1
    requires len <= |u| && u[..len] == t[..len]
    ensures Placeholder(u) == Placeholder(t)
  {
    assert forall k :: 0 <= k < len ==> t[k] == t[..len][k] == u[k];
    var a := SkipSpace(t, 2);
    var b := SkipName(t, a);
    SkipSpaceLocal(t, u, 2, len);
    SkipNameLocal(t, u, a, len);
    SkipSpaceLocal(t, u, b, len);
    assert u[a..b] == u[..len][a..b] == t[..len][a..b] == t[a..b];
  }

  /** For a key made of name characters, `{{\s*KEY\s*}}` matches exactly where the
      placeholder pattern matches with that name. */
  lemma KeyMatchIsPlaceholder(t: string, key: string)
    requires IsName(key)
    ensures KeyMatch(t, key).Some? <==> Placeholder(t).Some? && Placeholder(t).value.0 == key
    ensures KeyMatch(t, key).Some? ==> KeyMatch(t, key).value == Placeholder(t).value.1
  {
    if |t| >= 2 && t[0] == '{' && t[1] == '{' {
      var a := SkipSpace(t, 2);
      var j := a + |key|;
      if j <= |t| && t[a..j] == key {
        assert forall k :: a <= k < j ==> IsNameChar(t[k]) by {
          forall k | a <= k < j ensures IsNameChar(t[k]) {
            assert t[k] == key[k - a];
          }
        }
        if j < |t| && IsNameChar(t[j]) {
          SkipNameAtLeast(t, a, j + 1);
          NameCharNotSpace(t[j]);
          assert SkipSpace(t, j) == j;
        } else {
          SkipNameAtLeast(t, a, j);
          SkipNameSpan(t, a);
          assert SkipName(t, a) == j;
        }
      }
    }
  }

  // ---------------------------------------------------------------------------
  // The scans find exactly the placeholders

  /** `findall` reports every placeholder of the text. */
  lemma {:induction false} FindsEvery(s: string, d: nat)
    requires d <= |s| && Placeholder(s[d..]).Some?
    ensures Placeholder(s[d..]).value.0 in FindAll(s)
    decreases |s|
  {
    if d == 0 {
      assert s[0..] == s;
    } else {
      match Placeholder(s)
      case Some((n, len)) =>
        if d < len {
          NonOverlap(s, d);
          assert false;
        }
        assert s[len..][d - len..] == s[d..];
        FindsEvery(s[len..], d - len);
      case None =>
        assert s[1..][d - 1..] == s[d..];
        FindsEvery(s[1..], d - 1);
    }
  }

  /** and nothing else. */
  lemma {:induction false} FoundAreReal(s: string, n: string)
    requires n in FindAll(s)
    ensures HasPlaceholder(s, n)
    decreases |s|
  {
    match Placeholder(s)
    case Some((m, len)) =>
      if n == m {
        assert s[0..] == s;
      } else {
        FoundAreReal(s[len..], n);
        var d :| 0 <= d <= |s[len..]| && Placeholder(s[len..][d..]).Some? && Placeholder(s[len..][d..]).value.0 == n;
        assert s[len..][d..] == s[len + d..];
      }
    case None =>
      FoundAreReal(s[1..], n);
      var d :| 0 <= d <= |s[1..]| && Placeholder(s[1..][d..]).Some? && Placeholder(s[1..][d..]).value.0 == n;
      assert s[1..][d..] == s[1 + d..];
  }

  /** The names `findall` reports are exactly the names of the placeholders present. */
  lemma NamesExact(t: string, n: string)
    ensures n in Names(t) <==> HasPlaceholder(t, n)
  {
    if n in FindAll(t) {
      FoundAreReal(t, n);
    }
    if HasPlaceholder(t, n) {
      var d :| 0 <= d <= |t| && Placeholder(t[d..]).Some? && Placeholder(t[d..]).value.0 == n;
      FindsEvery(t, d);
    }
  }

  // ---------------------------------------------------------------------------
  // Substitution keeps the other placeholders

  /** No match of the key starts at any of the positions `j` to `k - 1` of `s`. */
  predicate NoKeyFrom(s: string, key: string, j: nat, k: nat)
    requires j <= k <= |s|
    decreases k - j
  {
    j == k || (KeyMatch(s[j..], key).None? && NoKeyFrom(s, key, j + 1, k))
  }

  /** Text holding no match passes through substitution unchanged. */
  lemma {:induction false} SubstitutePassesThrough(s: string, key: string, v: string, j: nat, k: nat)
    requires j <= k <= |s| && NoKeyFrom(s, key, j, k)
    ensures Substitute(s[j..], key, v) == s[j..k] + Substitute(s[k..], key, v)
    decreases k - j
  {
    if j < k {
      assert s[j..][1..] == s[j + 1..];
      SubstitutePassesThrough(s, key, v, j + 1, k);
      assert s[j..k] == [s[j]] + s[j + 1..k];
    }
  }

  /** Past its opening brace, a placeholder holds no match of any key. */
  lemma {:induction false} NoKeyInside(s: string, key: string, j: nat)
    requires IsName(key) && Placeholder(s).Some? && 1 <= j <= Placeholder(s).value.1
    ensures NoKeyFrom(s, key, j, Placeholder(s).value.1)
    decreases Placeholder(s).value.1 - j
  {
    if j < Placeholder(s).value.1 {
      NonOverlap(s, j);
      KeyMatchIsPlaceholder(s[j..], key);
      NoKeyInside(s, key, j + 1);
    }
  }

  /** A placeholder at the start whose name is not the key is copied to the output. */
  lemma SubstituteKeepsHere(s: string, key: string, v: string)
    requires IsName(key)
    requires Placeholder(s).Some? && Placeholder(s).value.0 != key
    ensures Placeholder(Substitute(s, key, v)) == Placeholder(s)
  {
    var len := Placeholder(s).value.1;
    KeyMatchIsPlaceholder(s, key);
    NoKeyInside(s, key, 1);
    assert s[0..] == s;
    SubstitutePassesThrough(s, key, v, 0, len);
    PlaceholderLocal(s, Substitute(s[len..], key, v));
  }

  /** A placeholder whose name is not the key survives the key's substitution. */
  lemma {:induction false} SubstituteKeeps(s: string, key: string, v: string, d: nat)
    requires IsName(key)
    requires d <= |s| && Placeholder(s[d..]).Some? && Placeholder(s[d..]).value.0 != key
    ensures HasPlaceholder(Substitute(s, key, v), Placeholder(s[d..]).value.0)
    decreases |s|
  {
    var m := Placeholder(s[d..]).value.0;
    if d == 0 {
      assert s[0..] == s;
      SubstituteKeepsHere(s, key, v);
      var out := Substitute(s, key, v);
      assert out[0..] == out;
    } else {
      KeyMatchIsPlaceholder(s, key);
      var len := if KeyMatch(s, key).Some? then KeyMatch(s, key).value else 1;
      if d < len {
        NonOverlap(s, d);
        assert false;
      }
      assert s[len..][d - len..] == s[d..];
      SubstituteKeeps(s[len..], key, v, d - len);
      SubstituteShift(s, key, v, len, m);
    }
  }

  /** One step of the substitution scan moves a placeholder of the rest to the output. */
  lemma SubstituteShift(s: string, key: string, v: string, len: nat, m: string)
    requires s != [] && len == (if KeyMatch(s, key).Some? then KeyMatch(s, key).value else 1)
    requires HasPlaceholder(Substitute(s[len..], key, v), m)
    ensures HasPlaceholder(Substitute(s, key, v), m)
  {
    var front := if KeyMatch(s, key).Some? then v else [s[0]];
    assert Substitute(s, key, v) == front + Substitute(s[len..], key, v);
    PlaceholderAfter(front, Substitute(s[len..], key, v), m);
  }

  lemma PlaceholderAfter(front: string, rest: string, m: string)
    requires HasPlaceholder(rest, m)
    ensures HasPlaceholder(front + rest, m)
  {
    var e :| 0 <= e <= |rest| && Placeholder(rest[e..]).Some? && Placeholder(rest[e..]).value.0 == m;
    assert (front + rest)[|front| + e..] == rest[e..];
  }

  /** A placeholder named outside the substituted keys survives the whole loop. */
  lemma {:induction false} ApplyValuesKeeps(t: string, order: seq<string>, payload: map<string, string>, m: string)
    requires forall k :: k in order ==> IsName(k)
    requires HasPlaceholder(t, m) && m !in order
    ensures HasPlaceholder(ApplyValues(t, order, payload), m)
    decreases |order|
  {
    if order != [] {
      var next := if order[0] in payload then Substitute(t, order[0], payload[order[0]]) else t;
      if order[0] in payload {
        var d :| 0 <= d <= |t| && Placeholder(t[d..]).Some? && Placeholder(t[d..]).value.0 == m;
        SubstituteKeeps(t, order[0], payload[order[0]], d);
      }
      ApplyValuesKeeps(next, order[1..], payload, m);
    }
  }

  lemma RequiredKeysAreNames()
    ensures forall k :: k in REQUIRED_KEYS ==> IsName(k)
  {
  }

  // ---------------------------------------------------------------------------
  // What rendering promises

  /** A required placeholder of the template without a value is reported, and only then
      is the outcome a missing-values error. */
  lemma MissingValuesIff(template: string, payload: map<string, string>, order: seq<string>)
    ensures (var r := RenderSpec(template, payload, order); r.Err? && StartsWith(r.error, MISSING_PREFIX))
      <==> exists k :: k in REQUIRED_KEYS && k !in payload && HasPlaceholder(template, k)
  {
    forall k | k in REQUIRED_KEYS
      ensures k in Names(template) <==> HasPlaceholder(template, k)
    {
      NamesExact(template, k);
    }
    assert MISSING_PREFIX[0] != UNRESOLVED_PREFIX[0];
  }

  /** A successful rendering has no placeholder left anywhere. */
  lemma RenderedHasNoPlaceholder(template: string, payload: map<string, string>, order: seq<string>)
    requires RenderSpec(template, payload, order).Ok?
    ensures var out := RenderSpec(template, payload, order).value;
      forall d :: 0 <= d <= |out| ==> Placeholder(out[d..]).None?
  {
    NoNamesIffNoPlaceholder(RenderSpec(template, payload, order).value);
  }

  /** A placeholder whose name is not a required key always makes rendering fail. */
  lemma UnknownPlaceholderFails(template: string, payload: map<string, string>, order: seq<string>, m: string)
    requires IsKeyOrder(order)
    requires HasPlaceholder(template, m) && m !in REQUIRED_KEYS
    ensures RenderSpec(template, payload, order).Err?
  {
    RequiredKeysAreNames();
    if (Names(template) * REQUIRED_KEYS) - payload.Keys == {} {
      var rendered := ApplyValues(template, order, payload);
      ApplyValuesKeeps(template, order, payload, m);
      NamesExact(rendered, m);
    }
  }

  /** A template without placeholders is returned unchanged. */
  lemma PlainTemplateUnchanged(template: string, payload: map<string, string>, order: seq<string>)
    requires forall d :: 0 <= d <= |template| ==> Placeholder(template[d..]).None?
    requires forall k :: k in order ==> IsName(k)
    ensures RenderSpec(template, payload, order) == Ok(template)
  {
    NoNamesIffNoPlaceholder(template);
    ApplyValuesIdentity(template, order, payload);
  }

  /** `findall` finds nothing exactly when no placeholder starts anywhere. */
  lemma NoNamesIffNoPlaceholder(t: string)
    ensures Names(t) == {} <==> forall d :: 0 <= d <= |t| ==> Placeholder(t[d..]).None?
  {
    forall d | 0 <= d <= |t| && Placeholder(t[d..]).Some?
      ensures Placeholder(t[d..]).value.0 in Names(t)
    {
      FindsEvery(t, d);
    }
    if Names(t) != {} {
      var n :| n in Names(t);
      FoundAreReal(t, n);
    }
  }

  lemma {:induction false} NoKeyAnywhere(t: string, key: string, j: nat)
    requires IsName(key) && j <= |t|
    requires forall d :: 0 <= d <= |t| ==> Placeholder(t[d..]).None?
    ensures NoKeyFrom(t, key, j, |t|)
    decreases |t| - j
  {
    if j < |t| {
      KeyMatchIsPlaceholder(t[j..], key);
      NoKeyAnywhere(t, key, j + 1);
    }
  }

  lemma SubstituteIdentity(t: string, key: string, v: string)
    requires IsName(key)
    requires forall d :: 0 <= d <= |t| ==> Placeholder(t[d..]).None?
    ensures Substitute(t, key, v) == t
  {
    NoKeyAnywhere(t, key, 0);
    SubstitutePassesThrough(t, key, v, 0, |t|);
    assert t[0..] == t && t[0..|t|] == t && t[|t|..] == [];
  }

  lemma {:induction false} ApplyValuesIdentity(t: string, order: seq<string>, payload: map<string, string>)
    requires forall d :: 0 <= d <= |t| ==> Placeholder(t[d..]).None?
    requires forall k :: k in order ==> IsName(k)
    ensures ApplyValues(t, order, payload) == t
    decreases |order|
  {
    if order != [] {
      if order[0] in payload {
        SubstituteIdentity(t, order[0], payload[order[0]]);
      }
      ApplyValuesIdentity(t, order[1..], payload);
    }
  }

  /** `render_issue_prompt` supplies every required key, so it never reports a missing
      value: it fails only on unresolved placeholders. */
  lemma IssuePromptNeverMissing(template: string, issue: IssueContext, order: seq<string>)
    ensures var r := RenderSpec(template, IssuePayload(issue), order);
      r.Err? ==> StartsWith(r.error, UNRESOLVED_PREFIX)
  {
  }
}

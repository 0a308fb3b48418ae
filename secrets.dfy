/** Secret lookup: the environment-variable name of a secret key, the order in which
    sources are consulted (an explicit backend alone; otherwise the environment stub,
    then the Databricks secret scope), and the transient/permanent classification of
    backend failures. Backends are oracles; their exceptions are values. */
module Secrets {
  import opened Common

  const TRANSIENT := "TRANSIENT"
  const PERMANENT := "PERMANENT"

  const ENV_PROVIDER := "env"
  const DATABRICKS_PROVIDER := "databricks"
  const RESOLVER_PROVIDER := "secrets"
  const ENV_PREFIX := "SECRET_"
  const DATABRICKS_SCOPE_KEY := "DATABRICKS_SECRET_SCOPE"
  const KEY_VAULT_SCOPE_KEY := "KEY_VAULT_SECRET_SCOPE"

  const EMPTY_KEY_REASON := "empty key is not allowed"
  const NO_SOURCE_REASON := "missing env stub and no DATABRICKS_SECRET_SCOPE/KEY_VAULT_SECRET_SCOPE"

  /** The substrings of a lower-cased failure message that mark it transient. */
  const TRANSIENT_MARKERS := ["timeout", "temporar", "throttl", "too many requests", "429",
                              "502", "503", "504", "connection", "unavailable", "try again"]

  /** `SecretError` with its two subclasses, told apart by `classification`. */
  datatype SecretError = SecretError(classification: string, key: string, provider: string, reason: string)

  /** An exception a backend raises, with `str(exc)` as `text`. */
  datatype Raised =
    | SecretFailure(err: SecretError)
    | TimeoutError(text: string)
    | ConnectionError(text: string)
    | OtherError(className: string, text: string)

  /** What a backend's `get` does: return a value or raise. */
  datatype Outcome = Value(s: string) | Raise(exc: Raised)

  /** A backend: its `provider` attribute and its `get` as an oracle. */
  datatype Backend = Backend(provider: string, get: string -> Outcome)

  /** What `dbutils.secrets.get(scope=…, key=…)` does: return any value or raise. */
  datatype DbOutcome = DbValue(v: Json) | DbRaise(exc: Raised)

  /** The lookup's result and, in order, the providers whose `get` was called. */
  datatype Lookup = Lookup(result: Outcome, consulted: seq<string>)

  function Transient(key: string, provider: string, reason: string): SecretError {
    SecretError(TRANSIENT, key, provider, reason)
  }

  function Permanent(key: string, provider: string, reason: string): SecretError {
    SecretError(PERMANENT, key, provider, reason)
  }

  // ---------------------------------------------------------------------------
  // Environment names

  /** `re.sub(r"[^A-Za-z0-9]+", "_", s)`: every maximal run of other characters
      becomes one underscore. */
  function Squash(s: string): (r: string)
    decreases |s|
  {
    if s == [] then []
    else if IsAsciiAlnum(s[0]) then [s[0]] + Squash(s[1..])
    else ['_'] + Squash(DropRun(s[1..]))
  }

  /** `s` without its leading characters outside `[A-Za-z0-9]`. */
  function DropRun(s: string): (r: string)
    ensures |r| <= |s| && (r == [] || IsAsciiAlnum(r[0]))
  {
    if s == [] || IsAsciiAlnum(s[0]) then s else DropRun(s[1..])
  }

  /** `s.strip("_")` */
  function StripUnderscores(s: string): (r: string)
    decreases |s|
  {
    if s != [] && s[0] == '_' then StripUnderscores(s[1..])
    else if s != [] && s[|s| - 1] == '_' then StripUnderscores(s[..|s| - 1])
    else s
  }

  /** `_key_to_env_name` */
  function KeyToEnvName(key: string): string {
    ENV_PREFIX + Upper(StripUnderscores(Squash(key)))
  }

  /** A well-formed environment suffix: upper-case letters, digits and single
      underscores between them. */
  predicate CanonicalName(s: string) {
    (forall i :: 0 <= i < |s| ==> IsAsciiUpper(s[i]) || IsAsciiDigit(s[i]) || s[i] == '_')
    && (s != [] ==> s[0] != '_' && s[|s| - 1] != '_')
    && (forall i :: 0 <= i < |s| - 1 ==> !(s[i] == '_' && s[i + 1] == '_'))
  }

  /** Text made of letters, digits and single underscores, not starting with one. */
  predicate Squashed(s: string) {
    (forall i :: 0 <= i < |s| ==> IsAsciiAlnum(s[i]) || s[i] == '_')
    && (forall i :: 0 <= i < |s| - 1 ==> !(s[i] == '_' && s[i + 1] == '_'))
  }

  lemma {:induction false} SquashShape(s: string)
    ensures Squashed(Squash(s))
    ensures s != [] && IsAsciiAlnum(s[0]) ==> Squash(s) != [] && Squash(s)[0] == s[0]
    ensures s != [] && !IsAsciiAlnum(s[0]) ==> Squash(s) != [] && Squash(s)[0] == '_'
    decreases |s|
  {
    if s != [] {
      if IsAsciiAlnum(s[0]) {
        SquashShape(s[1..]);
      } else {
        var t := DropRun(s[1..]);
        SquashShape(t);
        var r := Squash(t);
        assert t != [] ==> IsAsciiAlnum(t[0]) && r[0] == t[0];
        assert Squash(s) == ['_'] + r;
        forall i | 0 <= i < |Squash(s)| - 1 ensures !(Squash(s)[i] == '_' && Squash(s)[i + 1] == '_') {
          if i > 0 { assert Squash(s)[i] == r[i - 1] && Squash(s)[i + 1] == r[i]; }
        }
      }
    }
  }

  lemma {:induction false} StripUnderscoresShape(s: string)
    requires Squashed(s)
    ensures var r := StripUnderscores(s);
      Squashed(r) && (r != [] ==> r[0] != '_' && r[|r| - 1] != '_')
    decreases |s|
  {
    if s != [] && s[0] == '_' {
      assert Squashed(s[1..]) by {
        forall i | 0 <= i < |s[1..]| - 1 ensures !(s[1..][i] == '_' && s[1..][i + 1] == '_') {
          assert s[1..][i] == s[i + 1] && s[1..][i + 1] == s[i + 2];
        }
      }
      StripUnderscoresShape(s[1..]);
    } else if s != [] && s[|s| - 1] == '_' {
      StripUnderscoresShape(s[..|s| - 1]);
    }
  }

  /** Every environment name is the prefix followed by a canonical suffix. */
  lemma EnvNameShape(key: string)
    ensures var n := KeyToEnvName(key);
      StartsWith(n, ENV_PREFIX) && CanonicalName(n[|ENV_PREFIX|..])
  {
    SquashShape(key);
    StripUnderscoresShape(Squash(key));
    var t := StripUnderscores(Squash(key));
    var u := Upper(t);
    assert KeyToEnvName(key)[|ENV_PREFIX|..] == u;
    forall i | 0 <= i < |u| - 1 ensures !(u[i] == '_' && u[i + 1] == '_') {
      assert UpperChar(t[i]) == '_' ==> t[i] == '_';
      assert UpperChar(t[i + 1]) == '_' ==> t[i + 1] == '_';
    }
  }

  /** A canonical name maps to itself behind the prefix. */
  lemma {:induction false} CanonicalNameIsFixed(k: string)
    requires CanonicalName(k)
    ensures KeyToEnvName(k) == ENV_PREFIX + k
  {
    SquashOfSquashed(k);
    assert StripUnderscores(k) == k;
    UpperOfUpper(k);
  }

  lemma {:induction false} SquashOfSquashed(s: string)
    requires Squashed(s) && (s != [] ==> s[0] != '_')
    ensures Squash(s) == s
    decreases |s|
  {
    if s != [] {
      assert IsAsciiAlnum(s[0]);
      if |s| >= 2 && s[1] == '_' {
        var t := s[2..];
        assert s[1..][1..] == t;
        assert t != [] ==> t[0] != '_' && IsAsciiAlnum(t[0]);
        assert DropRun(t) == t;
        assert Squashed(t) by {
          forall i | 0 <= i < |t| - 1 ensures !(t[i] == '_' && t[i + 1] == '_') {
            assert t[i] == s[i + 2] && t[i + 1] == s[i + 3];
          }
        }
        SquashOfSquashed(t);
        assert Squash(s[1..]) == ['_'] + t;
        assert s == [s[0]] + (['_'] + t);
      } else {
        assert Squashed(s[1..]) by {
          forall i | 0 <= i < |s[1..]| - 1 ensures !(s[1..][i] == '_' && s[1..][i + 1] == '_') {
            assert s[1..][i] == s[i + 1] && s[1..][i + 1] == s[i + 2];
          }
        }
        SquashOfSquashed(s[1..]);
        assert s == [s[0]] + s[1..];
      }
    }
  }

  lemma UpperOfUpper(s: string)
    requires forall i :: 0 <= i < |s| ==> IsAsciiUpper(s[i]) || IsAsciiDigit(s[i]) || s[i] == '_'
    ensures Upper(s) == s
  {
  }

  // ---------------------------------------------------------------------------
  // Classification

  function ErrorText(e: Raised): string {
    match e
    case SecretFailure(err) => "[SECRET][" + err.classification + "] provider=" + err.provider + " key=" + err.key + " reason=" + err.reason
    case TimeoutError(t) => t
    case ConnectionError(t) => t
    case OtherError(_, t) => t
  }

  function ClassName(e: Raised): string {
    match e
    case SecretFailure(err) => if err.classification == TRANSIENT then "TransientSecretError" else if err.classification == PERMANENT then "PermanentSecretError" else "SecretError"
    case TimeoutError(_) => "TimeoutError"
    case ConnectionError(_) => "ConnectionError"
    case OtherError(n, _) => n
  }

  /** `any(marker in text for marker in markers)` */
  predicate AnyMarker(text: string, markers: seq<string>) {
    exists k :: 0 <= k < |markers| && Contains(text, markers[k])
  }

  /** `_classify_secret_error`: the reason is the stripped message or the class name. */
  function ClassifySecretError(e: Raised, key: string, provider: string): (r: SecretError)
    ensures r.key == key && r.provider == provider
    ensures r.reason == (if IsBlank(ErrorText(e)) then ClassName(e) else Strip(ErrorText(e)))
    ensures r.classification == TRANSIENT <==>
      e.TimeoutError? || e.ConnectionError? || AnyMarker(Lower(r.reason), TRANSIENT_MARKERS)
    ensures r.classification in {TRANSIENT, PERMANENT}
  {
    var stripped := Strip(ErrorText(e));
    var reason := if stripped == [] then ClassName(e) else stripped;
    if e.TimeoutError? || e.ConnectionError? || AnyMarker(Lower(reason), TRANSIENT_MARKERS) then
      Transient(key, provider, reason)
    else Permanent(key, provider, reason)
  }

  /** `_get_from_backend`: a `SecretError` passes through; anything else is classified. */
  function GetFromBackend(b: Backend, key: string): (r: Outcome)
    ensures b.get(key).Value? ==> r == b.get(key)
    ensures b.get(key).Raise? && b.get(key).exc.SecretFailure? ==> r == b.get(key)
    ensures b.get(key).Raise? && !b.get(key).exc.SecretFailure? ==>
      r == Raise(SecretFailure(ClassifySecretError(b.get(key).exc, key, b.provider)))
  {
    match b.get(key)
    case Value(v) => Value(v)
    case Raise(SecretFailure(err)) => Raise(SecretFailure(err))
    case Raise(exc) => Raise(SecretFailure(ClassifySecretError(exc, key, b.provider)))
  }

  /** A backend failure always surfaces as a `SecretError`. */
  lemma BackendFailuresAreSecretErrors(b: Backend, key: string)
    ensures GetFromBackend(b, key).Raise? ==> GetFromBackend(b, key).exc.SecretFailure?
  {
  }

  // ---------------------------------------------------------------------------
  // Backends and resolution

  function EnvGet(env: map<string, string>, key: string): string {
    if key in env then env[key] else ""
  }

  /** `EnvSecretsBackend.get`: the stripped value of the derived name; blank raises
      `KeyError(name)`, whose text is the quoted name. */
  function EnvBackendGet(env: map<string, string>, key: string): (r: Outcome)
    ensures r.Value? ==> r.s == Strip(EnvGet(env, KeyToEnvName(key))) && r.s != ""
    ensures r.Raise? <==> IsBlank(EnvGet(env, KeyToEnvName(key)))
  {
    var name := KeyToEnvName(key);
    var value := Strip(EnvGet(env, name));
    if value == [] then Raise(OtherError("KeyError", "'" + name + "'")) else Value(value)
  }

  /** The quote Python's `repr` of a str uses: a double quote only when the text holds
      a single quote and no double quote. */
  function ReprQuote(s: string): char {
    if '\'' in s && '"' !in s then '"' else '\''
  }

  function HexDigit(n: int): char
    requires 0 <= n < 16
  {
    "0123456789abcdef"[n]
  }

  /** How `repr` writes one character inside quotes `q`: backslash, the quote, tab,
      line feed and carriage return by name, other ASCII control characters as `\xNN`,
      everything else as itself. */
  function EscapeChar(c: char, q: char): string {
    if c == '\\' then "\\\\"
    else if c == q then ['\\', q]
    else if c == '\n' then "\\n"
    else if c == '\r' then "\\r"
    else if c == '\t' then "\\t"
    else if c as int < 32 || c as int == 127 then "\\x" + [HexDigit(c as int / 16), HexDigit(c as int % 16)]
    else [c]
  }

  function Escaped(s: string, q: char): string
    decreases |s|
  {
    if s == [] then "" else EscapeChar(s[0], q) + Escaped(s[1..], q)
  }

  /** `repr(s)` of a str, so `str(KeyError(s))`. */
  function PyRepr(s: string): (r: string)
    ensures |r| >= 2 && r[0] == ReprQuote(s) && r[|r| - 1] == ReprQuote(s)
  {
    [ReprQuote(s)] + Escaped(s, ReprQuote(s)) + [ReprQuote(s)]
  }

  /** A character `repr` writes as itself inside quotes `q`. */
  predicate Plain(c: char, q: char) {
    c != '\\' && c != q && 32 <= c as int && c as int != 127
  }

  lemma {:induction false} EscapedPlain(s: string, q: char)
    requires forall i :: 0 <= i < |s| ==> Plain(s[i], q)
    ensures Escaped(s, q) == s
    decreases |s|
  {
    if s != [] {
      EscapedPlain(s[1..], q);
    }
  }

  /** A text of printable characters without a quote or backslash is written between
      single quotes, unchanged. */
  lemma PlainRepr(s: string)
    requires forall i :: 0 <= i < |s| ==> Plain(s[i], '\'') && s[i] != '"'
    ensures PyRepr(s) == "'" + s + "'"
  {
    assert '\'' !in s;
    EscapedPlain(s, '\'');
  }

  /** A single quote in the text, and no double quote, switches `repr` to double quotes
      and leaves the single quote unescaped. */
  lemma QuotedRepr(s: string)
    requires '\'' in s && '"' !in s
    ensures PyRepr(s)[0] == '"' && PyRepr(s)[|PyRepr(s)| - 1] == '"'
  {
  }

  /** `DatabricksSecretBackend(scope).get`: the value must be a non-blank string,
      otherwise `KeyError(key)`, whose text is `repr(key)`; it is returned unstripped. */
  function DatabricksGet(dbutils: (string, string) -> DbOutcome, scope: string, key: string): Outcome {
    match dbutils(scope, key)
    case DbRaise(exc) => Raise(exc)
    case DbValue(v) =>
      if v.JStr? && !IsBlank(v.s) then Value(v.s) else Raise(OtherError("KeyError", PyRepr(key)))
  }

  function DatabricksBackend(dbutils: (string, string) -> DbOutcome, scope: string): Backend {
    Backend(DATABRICKS_PROVIDER, k => DatabricksGet(dbutils, scope, k))
  }

  /** `get_secret` */
  function GetSecret(key: string, backend: Option<Backend>, env: map<string, string>,
                     dbutils: (string, string) -> DbOutcome): (r: Lookup)
    ensures IsBlank(key) ==> r == Lookup(Raise(SecretFailure(Permanent(key, RESOLVER_PROVIDER, EMPTY_KEY_REASON))), [])
    ensures !IsBlank(key) && backend.Some? ==>
      r == Lookup(GetFromBackend(backend.value, Strip(key)), [backend.value.provider])
    ensures !IsBlank(key) && backend.None? ==> r.consulted != [] && r.consulted[0] == ENV_PROVIDER
    ensures !IsBlank(key) && backend.None? && EnvBackendGet(env, Strip(key)).Value? ==>
      r == Lookup(EnvBackendGet(env, Strip(key)), [ENV_PROVIDER])
  {
    var name := Strip(key);
    if name == [] then Lookup(Raise(SecretFailure(Permanent(key, RESOLVER_PROVIDER, EMPTY_KEY_REASON))), [])
    else if backend.Some? then Lookup(GetFromBackend(backend.value, name), [backend.value.provider])
    else match EnvBackendGet(env, name)
      case Value(v) => Lookup(Value(v), [ENV_PROVIDER])
      case Raise(_) =>
        var scope := if !IsBlank(EnvGet(env, DATABRICKS_SCOPE_KEY)) then Strip(EnvGet(env, DATABRICKS_SCOPE_KEY))
                     else Strip(EnvGet(env, KEY_VAULT_SCOPE_KEY));
        if scope == [] then
          Lookup(Raise(SecretFailure(Permanent(name, RESOLVER_PROVIDER, NO_SOURCE_REASON))), [ENV_PROVIDER])
        else
          Lookup(GetFromBackend(DatabricksBackend(dbutils, scope), name), [ENV_PROVIDER, DATABRICKS_PROVIDER])
  }

  /** After an environment miss: without a scope the lookup fails permanently and
      consults nothing else; with one, the Databricks scope is consulted, the
      Databricks scope variable taking precedence over the Key Vault one. */
  lemma EnvMissFallsBack(key: string, env: map<string, string>, dbutils: (string, string) -> DbOutcome)
    requires !IsBlank(key) && EnvBackendGet(env, Strip(key)).Raise?
    ensures var r := GetSecret(key, None, env, dbutils);
      var primary := Strip(EnvGet(env, DATABRICKS_SCOPE_KEY));
      var secondary := Strip(EnvGet(env, KEY_VAULT_SCOPE_KEY));
      (primary == [] && secondary == [] ==>
         r == Lookup(Raise(SecretFailure(Permanent(Strip(key), RESOLVER_PROVIDER, NO_SOURCE_REASON))), [ENV_PROVIDER]))
      && (primary != [] ==>
         r == Lookup(GetFromBackend(DatabricksBackend(dbutils, primary), Strip(key)), [ENV_PROVIDER, DATABRICKS_PROVIDER]))
      && (primary == [] && secondary != [] ==>
         r == Lookup(GetFromBackend(DatabricksBackend(dbutils, secondary), Strip(key)), [ENV_PROVIDER, DATABRICKS_PROVIDER]))
  {
  }

  /** A secret stored under its environment name is found there, stripped, whatever
      the other sources hold. */
  lemma EnvStubWins(key: string, value: string, env: map<string, string>, dbutils: (string, string) -> DbOutcome)
    requires !IsBlank(key) && !IsBlank(value)
    ensures GetSecret(key, None, env[KeyToEnvName(Strip(key)) := value], dbutils)
         == Lookup(Value(Strip(value)), [ENV_PROVIDER])
  {
    var env2 := env[KeyToEnvName(Strip(key)) := value];
    assert EnvGet(env2, KeyToEnvName(Strip(key))) == value;
  }
}

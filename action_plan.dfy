/** Validation of an operator action plan: the action must be one of three, its
    parameters must be exactly that action's schema, every value must be a string,
    and a backfill's `date_kst` must be a calendar date written as YYYY-MM-DD. */
module ActionPlan {
  import opened Common

  const BACKFILL_SILVER := "backfill_silver"
  const RETRY_PIPELINE := "retry_pipeline"
  const SKIP_AND_REPORT := "skip_and_report"

  const ACTIONS := {BACKFILL_SILVER, RETRY_PIPELINE, SKIP_AND_REPORT}

  const BAD_DATE := "date_kst must be YYYY-MM-DD"

  /** The parameter names of each action, in the schema's declaration order. */
  function Schema(action: string): (r: seq<string>)
    requires action in ACTIONS
    ensures forall i, j :: 0 <= i < j < |r| ==> r[i] != r[j]
  {
    if action == BACKFILL_SILVER then ["pipeline", "date_kst", "run_mode"]
    else if action == RETRY_PIPELINE then ["pipeline", "run_mode"]
    else ["pipeline", "reason"]
  }

  function SchemaKeys(action: string): (r: set<string>)
    requires action in ACTIONS
    ensures forall k :: k in r <==> k in Schema(action)
  {
    set k | k in Schema(action)
  }

  /** `type(value).__name__` */
  function TypeName(v: Json): string {
    match v
    case JNull => "NoneType"
    case JBool(_) => "bool"
    case JInt(_) => "int"
    case JStr(_) => "str"
    case JList(_) => "list"
    case JObj(_) => "dict"
  }

  /** The type complaints for `keys`, in order: one per non-string value. */
  function TypeErrors(keys: seq<string>, params: map<string, Json>): (r: seq<string>)
    requires forall k :: k in keys ==> k in params
  {
    if keys == [] then [] else TypeError(keys[0], params[keys[0]]) + TypeErrors(keys[1..], params)
  }

  /** There is no complaint exactly when every value is a str. */
  lemma {:induction false} TypeErrorsEmptyIff(keys: seq<string>, params: map<string, Json>)
    requires forall k :: k in keys ==> k in params
    ensures TypeErrors(keys, params) == [] <==> forall k :: k in keys ==> params[k].JStr?
  {
    if keys != [] {
      TypeErrorsEmptyIff(keys[1..], params);
      assert forall k :: k in keys <==> k == keys[0] || k in keys[1..];
    }
  }

  /** The complaint for one value, if it is not a str. */
  function TypeError(key: string, v: Json): (r: seq<string>)
    ensures r == [] <==> v.JStr?
  {
    if v.JStr? then [] else [key + " must be str, got " + TypeName(v)]
  }

  // ---------------------------------------------------------------------------
  // date_kst

  predicate IsLeap(y: int) {
    (y % 4 == 0 && y % 100 != 0) || y % 400 == 0
  }

  function DaysIn(y: int, m: int): int {
    if m == 2 then (if IsLeap(y) then 29 else 28)
    else if m == 4 || m == 6 || m == 9 || m == 11 then 30
    else 31
  }

  function DigitValue(c: char): nat
    requires IsAsciiDigit(c)
  {
    c as int - '0' as int
  }

  /** One regex alternative list of `strptime`: a value and how many characters it took. */
  datatype Field = Field(value: nat, width: nat)

  /** `%m`: `1[0-2]|0[1-9]|[1-9]`, first alternative that matches. */
  function MatchMonth(t: string): (r: Option<Field>)
    ensures r.Some? ==> 1 <= r.value.width <= 2 && r.value.width <= |t| && 1 <= r.value.value <= 12
  {
    if |t| >= 2 && t[0] == '1' && '0' <= t[1] <= '2' then Some(Field(10 + DigitValue(t[1]), 2))
    else if |t| >= 2 && t[0] == '0' && '1' <= t[1] <= '9' then Some(Field(DigitValue(t[1]), 2))
    else if |t| >= 1 && '1' <= t[0] <= '9' then Some(Field(DigitValue(t[0]), 1))
    else None
  }

  /** `%d`: `3[01]|[12]\d|0[1-9]|[1-9]| [1-9]`, first alternative that matches. */
  function MatchDay(t: string): (r: Option<Field>)
    ensures r.Some? ==> 1 <= r.value.width <= 2 && r.value.width <= |t| && 1 <= r.value.value <= 31
  {
    if |t| >= 2 && t[0] == '3' && '0' <= t[1] <= '1' then Some(Field(30 + DigitValue(t[1]), 2))
    else if |t| >= 2 && '1' <= t[0] <= '2' && IsAsciiDigit(t[1]) then Some(Field(10 * DigitValue(t[0]) + DigitValue(t[1]), 2))
    else if |t| >= 2 && t[0] == '0' && '1' <= t[1] <= '9' then Some(Field(DigitValue(t[1]), 2))
    else if |t| >= 1 && '1' <= t[0] <= '9' then Some(Field(DigitValue(t[0]), 1))
    else if |t| >= 2 && t[0] == ' ' && '1' <= t[1] <= '9' then Some(Field(DigitValue(t[1]), 2))
    else None
  }

  datatype Date = Date(year: int, month: int, day: int)

  predicate ValidDate(d: Date) {
    1 <= d.year <= 9999 && 1 <= d.month <= 12 && 1 <= d.day <= DaysIn(d.year, d.month)
  }

  /** The value of four ASCII digits. */
  function Four(t: string): nat
    requires |t| == 4 && AllDigits(t)
  {
    1000 * DigitValue(t[0]) + 100 * DigitValue(t[1]) + 10 * DigitValue(t[2]) + DigitValue(t[3])
  }

  /** `datetime.strptime(s, "%Y-%m-%d")`: four digits, a dash, the month, a dash, the
      day, nothing after it, and a date that exists. */
  function Strptime(s: string): (r: Option<Date>)
    ensures r.Some? ==> ValidDate(r.value)
  {
    if |s| < 5 || !AllDigits(s[..4]) || s[4] != '-' then None
    else
      match MatchMonth(s[5..])
      case None => None
      case Some(m) =>
        var rest := s[5 + m.width..];
        if rest == [] || rest[0] != '-' then None
        else
          match MatchDay(rest[1..])
          case None => None
          case Some(d) =>
            if 1 + d.width != |rest| then None
            else
              var date := Date(Four(s[..4]), m.value, d.value);
              if ValidDate(date) then Some(date) else None
  }

  function Pad2(n: nat): string
    requires n < 100
  {
    [DigitChar(n / 10), DigitChar(n % 10)]
  }

  /** `%Y` as glibc prints it: four digits from year 1000 on, plain decimal below. */
  function YearText(y: int): (r: string)
    requires 1 <= y <= 9999
    ensures |r| >= 1 && (y < 1000 ==> r[0] != '0')
    ensures y >= 1000 ==> |r| == 4
  {
    if y >= 1000 then
      var r := y % 1000;
      var r2 := r % 100;
      [DigitChar(y / 1000), DigitChar(r / 100), DigitChar(r2 / 10), DigitChar(r2 % 10)]
    else NatToString(y)
  }

  /** `strftime("%Y-%m-%d")`: the year, then month and day in two digits. */
  function Strftime(d: Date): string
    requires ValidDate(d)
  {
    YearText(d.year) + "-" + Pad2(d.month) + "-" + Pad2(d.day)
  }

  /** `_validate_date_kst` on a string: the parse must succeed and print back unchanged. */
  predicate ValidDateKst(s: string) {
    match Strptime(s)
    case None => false
    case Some(d) => Strftime(d) == s
  }

  /** Four ASCII digits of year 1000 or later, a two-digit month and day of an
      existing date: the only accepted spelling. */
  predicate ZeroPaddedDate(s: string) {
    |s| == 10 && s[4] == '-' && s[7] == '-'
    && AllDigits(s[..4]) && IsAsciiDigit(s[5]) && IsAsciiDigit(s[6]) && IsAsciiDigit(s[8]) && IsAsciiDigit(s[9])
    && Four(s[..4]) >= 1000
    && ValidDate(Date(Four(s[..4]), 10 * DigitValue(s[5]) + DigitValue(s[6]), 10 * DigitValue(s[8]) + DigitValue(s[9])))
  }

  lemma YearTextValue(y: int)
    requires 1000 <= y <= 9999
    ensures AllDigits(YearText(y)) && Four(YearText(y)) == y
  {
  }

  lemma MatchMonthPadded(m: nat, t: string)
    requires 1 <= m <= 12 && |t| >= 2 && t[..2] == Pad2(m)
    ensures MatchMonth(t) == Some(Field(m, 2))
  {
    assert t[0] == Pad2(m)[0] && t[1] == Pad2(m)[1];
  }

  lemma MatchDayPadded(d: nat, t: string)
    requires 1 <= d <= 31 && t == Pad2(d)
    ensures MatchDay(t) == Some(Field(d, 2))
  {
  }

  /** The characters of a rendering from year 1000 on. */
  lemma StrftimeChars(d: Date)
    requires ValidDate(d) && d.year >= 1000
    ensures var s := Strftime(d);
      |s| == 10 && s[..4] == YearText(d.year) && s[4] == '-' && s[5..7] == Pad2(d.month)
      && s[7] == '-' && s[8..] == Pad2(d.day)
  {
  }

  /** Every existing date from year 1000 on, printed zero-padded, is accepted and reads
      back as itself. */
  lemma FormattedDateAccepted(d: Date)
    requires ValidDate(d) && d.year >= 1000
    ensures ValidDateKst(Strftime(d)) && Strptime(Strftime(d)) == Some(d)
  {
    var s := Strftime(d);
    YearTextValue(d.year);
    StrftimeChars(d);
    assert s[5..][..2] == s[5..7];
    MatchMonthPadded(d.month, s[5..]);
    var rest := s[7..];
    assert rest[1..] == s[8..];
    MatchDayPadded(d.day, rest[1..]);
  }

  /** An accepted date is exactly such a rendering. */
  lemma AcceptedDateIsZeroPadded(s: string)
    requires ValidDateKst(s)
    ensures ZeroPaddedDate(s)
  {
    var d := Strptime(s).value;
    assert Strftime(d)[..|YearText(d.year)|] == YearText(d.year);
    assert |Strftime(d)| == 10;
  }

  lemma YearTextOfDigits(t: string)
    requires |t| == 4 && AllDigits(t) && Four(t) >= 1000
    ensures YearText(Four(t)) == t
  {
    var y := Four(t);
    var a, b, c, e := DigitValue(t[0]), DigitValue(t[1]), DigitValue(t[2]), DigitValue(t[3]);
    DivMod(y, 1000, a, 100 * b + 10 * c + e);
    DivMod(100 * b + 10 * c + e, 100, b, 10 * c + e);
    DivMod(10 * c + e, 10, c, e);
  }

  lemma DivMod(y: int, k: int, q: int, r: int)
    requires k > 0 && 0 <= r < k && y == q * k + r
    ensures y / k == q && y % k == r
  {
    var q', r' := y / k, y % k;
    assert (q - q') * k == r' - r;
    if q > q' {
      MulAtLeast(q - q', k);
    } else if q < q' {
      MulAtLeast(q' - q, k);
    }
  }

  lemma {:induction false} MulAtLeast(d: int, k: int)
    requires d >= 1 && k > 0
    ensures d * k >= k
    decreases d
  {
    if d > 1 {
      MulAtLeast(d - 1, k);
      assert d * k == (d - 1) * k + k;
    }
  }

  lemma Pad2OfDigits(a: char, b: char)
    requires IsAsciiDigit(a) && IsAsciiDigit(b)
    ensures Pad2(10 * DigitValue(a) + DigitValue(b)) == [a, b]
  {
  }

  lemma ZeroPaddedAccepted(s: string)
    requires ZeroPaddedDate(s)
    ensures ValidDateKst(s)
  {
    var d := Date(Four(s[..4]), 10 * DigitValue(s[5]) + DigitValue(s[6]), 10 * DigitValue(s[8]) + DigitValue(s[9]));
    FormattedDateAccepted(d);
    StrftimeChars(d);
    var t := Strftime(d);
    YearTextOfDigits(s[..4]);
    Pad2OfDigits(s[5], s[6]);
    Pad2OfDigits(s[8], s[9]);
    assert t[..4] == s[..4];
    assert t[5..7] == s[5..7];
    assert t[8..] == s[8..];
    assert t == t[..4] + [t[4]] + t[5..7] + [t[7]] + t[8..];
    assert s == s[..4] + [s[4]] + s[5..7] + [s[7]] + s[8..];
  }

  // ---------------------------------------------------------------------------
  // The validator

  function InvalidAction(action: string): string {
    "Invalid action '" + action + "'. Allowed actions: " + Join([BACKFILL_SILVER, RETRY_PIPELINE, SKIP_AND_REPORT], ", ")
  }

  /** The outcome `validate_action_plan` should have: the first check that fails
      supplies the message. */
  ghost function PlanSpec(action: string, params: map<string, Json>): Result<()> {
    if action !in ACTIONS then Err(InvalidAction(action))
    else
      var keys := SchemaKeys(action);
      if keys - params.Keys != {} then
        Err("Missing required parameters for action '" + action + "': " + Join(SortedSet(keys - params.Keys), ", "))
      else if params.Keys - keys != {} then
        Err("Unexpected parameters for action '" + action + "': " + Join(SortedSet(params.Keys - keys), ", "))
      else if TypeErrors(Schema(action), params) != [] then
        Err("Invalid parameter types for action '" + action + "': " + Join(TypeErrors(Schema(action), params), "; "))
      else if action == BACKFILL_SILVER && (TypeErrorsEmptyIff(Schema(action), params); !ValidDateKst(params["date_kst"].s)) then Err(BAD_DATE)
      else Ok(())
  }

  /** A plan is accepted exactly when its keys are the schema's, all its values are
      strings and, for a backfill, the date is a zero-padded existing date. */
  lemma PlanAcceptedIff(action: string, params: map<string, Json>)
    ensures PlanSpec(action, params).Ok? <==>
      action in ACTIONS && params.Keys == SchemaKeys(action)
      && (forall k :: k in params ==> params[k].JStr?)
      && (action == BACKFILL_SILVER ==> ZeroPaddedDate(params["date_kst"].s))
  {
    if action in ACTIONS && params.Keys == SchemaKeys(action) {
      TypeErrorsEmptyIff(Schema(action), params);
    }
    if action in ACTIONS && params.Keys == SchemaKeys(action) && (forall k :: k in params ==> params[k].JStr?) && action == BACKFILL_SILVER {
      var s := params["date_kst"].s;
      if ValidDateKst(s) {
        AcceptedDateIsZeroPadded(s);
      }
      if ZeroPaddedDate(s) {
        ZeroPaddedAccepted(s);
      }
    }
  }

  /** The missing-parameter check comes before the unexpected-parameter check: a plan
      with both faults is reported as missing. */
  lemma MissingReportedFirst(action: string, params: map<string, Json>)
    requires action in ACTIONS && SchemaKeys(action) - params.Keys != {} && params.Keys - SchemaKeys(action) != {}
    ensures var r := PlanSpec(action, params);
      r.Err? && StartsWith(r.error, "Missing required parameters")
  {
  }

  /** `validate_action_plan` */
  method ValidateActionPlan(action: string, params: map<string, Json>) returns (r: Result<()>)
    ensures r == PlanSpec(action, params)
  {
    if action !in ACTIONS {
      return Err(InvalidAction(action));
    }
    var schema := Schema(action);
    var keys := SchemaKeys(action);
    if keys - params.Keys != {} {
      var missing := SortStrings(keys - params.Keys);
      return Err("Missing required parameters for action '" + action + "': " + Join(missing, ", "));
    }
    if params.Keys - keys != {} {
      var unexpected := SortStrings(params.Keys - keys);
      return Err("Unexpected parameters for action '" + action + "': " + Join(unexpected, ", "));
    }
    var invalid := CollectTypeErrors(schema, params);
    if invalid != [] {
      return Err("Invalid parameter types for action '" + action + "': " + Join(invalid, "; "));
    }
    if action == BACKFILL_SILVER {
      assert "date_kst" in keys;
      if !ValidDateKst(params["date_kst"].s) {
        return Err(BAD_DATE);
      }
    }
    r := Ok(());
  }

  /** The type-check loop: one complaint per schema key whose value is not a str. */
  method CollectTypeErrors(keys: seq<string>, params: map<string, Json>) returns (invalid: seq<string>)
    requires forall k :: k in keys ==> k in params
    ensures invalid == TypeErrors(keys, params)
  {
    invalid := [];
    var i := 0;
    while i < |keys|
      invariant 0 <= i <= |keys|
      invariant invalid == TypeErrors(keys[..i], params)
    {
      TypeErrorsAppend(keys[..i], keys[i], params);
      assert keys[..i + 1] == keys[..i] + [keys[i]];
      invalid := invalid + TypeError(keys[i], params[keys[i]]);
      i := i + 1;
    }
    assert keys[..i] == keys;
  }

  lemma {:induction false} TypeErrorsAppend(keys: seq<string>, k: string, params: map<string, Json>)
    requires forall x :: x in keys ==> x in params
    requires k in params
    ensures TypeErrors(keys + [k], params) == TypeErrors(keys, params) + TypeError(k, params[k])
  {
    if keys != [] {
      assert (keys + [k])[1..] == keys[1..] + [k];
      TypeErrorsAppend(keys[1..], k, params);
    }
  }
}

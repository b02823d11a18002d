/**
 * The output-contract validator (validate_contract.py).
 *
 * `validate_contract` walks a parsed JSON value and collects one error per
 * violated rule: the three root keys, the fields, types, ranges and id
 * format of each suspicious account and each fraud ring, the summary
 * fields, and every dictionary key written in camelCase at any depth.
 * Errors are structured values carrying what the message interpolates
 * (the index, the offending value, the key path); the message text itself
 * is not modelled.  Where the Python code raises (a value without `.keys()`,
 * a non-iterable list, `re.match` on a non-string, an unhashable value
 * tested against a set) the outcome is `Crashed`.
 *
 * A JSON object is the list of its items in order; a dictionary built by
 * `json.load` has distinct keys, and `Get` returns the first item with
 * the key.  Python's `bool` is a subclass of `int`, so JSON booleans pass
 * the integer and number checks as they do in the source.
 */
module Contract {
  import opened Common

  datatype Json =
    | JNull
    | JBool(b: bool)
    | JInt(i: int)
    | JFloat(r: real)
    | JString(s: string)
    | JArray(items: seq<Json>)
    | JObject(fields: seq<(string, Json)>)

  // ---------------------------------------------------------------------
  // Dictionary access and Python's isinstance tests
  // ---------------------------------------------------------------------

  /** `d.get(key)`: None when the key is absent. */
  function Get(fields: seq<(string, Json)>, key: string): (r: Option<Json>)
    ensures r.Some? <==> exists i :: 0 <= i < |fields| && fields[i].0 == key
    decreases |fields|
  {
    if fields == [] then None
    else if fields[0].0 == key then Some(fields[0].1)
    else
      assert forall i :: 1 <= i < |fields| ==> fields[1..][i - 1] == fields[i];
      Get(fields[1..], key)
  }

  function Keys(fields: seq<(string, Json)>): (keys: seq<string>)
    ensures |keys| == |fields|
  {
    seq(|fields|, i requires 0 <= i < |fields| => fields[i].0)
  }

  /** `required.issubset(d.keys())` */
  predicate IncludesAll(fields: seq<(string, Json)>, required: set<string>) {
    forall k :: k in required ==> Get(fields, k).Some?
  }

  predicate IsString(v: Option<Json>) {
    v.Some? && v.value.JString?
  }

  predicate IsArray(v: Option<Json>) {
    v.Some? && v.value.JArray?
  }

  /** `isinstance(v, int)`, which holds for booleans too. */
  predicate IsInt(v: Option<Json>) {
    v.Some? && (v.value.JInt? || v.value.JBool?)
  }

  /** `isinstance(v, (int, float))` */
  predicate IsNumber(v: Option<Json>) {
    v.Some? && (v.value.JInt? || v.value.JFloat? || v.value.JBool?)
  }

  function NumberValue(v: Json): real
    requires v.JInt? || v.JFloat? || v.JBool?
  {
    match v
    case JInt(i) => i as real
    case JFloat(r) => r
    case JBool(b) => if b then 1.0 else 0.0
  }

  /** `0 <= v <= 100` */
  predicate InRange(v: Json)
    requires v.JInt? || v.JFloat? || v.JBool?
  {
    0.0 <= NumberValue(v) <= 100.0
  }

  /**
   * What `enumerate(v)` yields: a list's items, a dictionary's keys or a
   * string's characters; None where Python raises.
   */
  function Elements(v: Json): Option<seq<Json>> {
    match v
    case JArray(items) => Some(items)
    case JObject(fields) => Some(seq(|fields|, i requires 0 <= i < |fields| => JString(fields[i].0)))
    case JString(s) => Some(seq(|s|, i requires 0 <= i < |s| => JString([s[i]])))
    case _ => None
  }

  // ---------------------------------------------------------------------
  // re.match(r'^RING_\d{3}$', s) and re.search(r'[a-z][A-Z]', key)
  // ---------------------------------------------------------------------

  /**
   * "RING_" and three digits; Python's `$` also matches just before a
   * final newline, so one trailing "\n" is accepted.
   */
  predicate MatchesRingId(s: string) {
    (|s| == 8 || (|s| == 9 && s[8] == '\n')) && s[..5] == "RING_" && AllDigits(s[5..8])
  }

  predicate IsLowerAscii(c: char) {
    'a' <= c <= 'z'
  }

  predicate IsUpperAscii(c: char) {
    'A' <= c <= 'Z'
  }

  /** A lower-case ASCII letter directly followed by an upper-case one. */
  predicate HasCamelHump(key: string) {
    exists i :: 0 <= i < |key| - 1 && IsLowerAscii(key[i]) && IsUpperAscii(key[i + 1])
  }

  // ---------------------------------------------------------------------
  // Errors
  // ---------------------------------------------------------------------

  datatype Error =
    | MissingRootKeys(got: seq<string>)
    | AccountMissingFields(account: nat, got: seq<string>)
    | AccountIdNotString(account: nat)
    | AccountScoreNotNumber(account: nat)
    | AccountScoreOutOfRange(account: nat, score: Json)
    | AccountPatternsNotArray(account: nat)
    | AccountRingIdNotString(account: nat)
    | AccountRingIdInvalid(account: nat, ringId: string)
    | RingMissingFields(ring: nat, got: seq<string>)
    | RingIdInvalid(ring: nat, shown: Option<string>)
    | RingMembersNotArray(ring: nat)
    | RingTooFewMembers(ring: nat)
    | RingPatternInvalid(ring: nat, patternType: Option<Json>)
    | RingRiskNotNumber(ring: nat)
    | RingRiskOutOfRange(ring: nat, risk: Json)
    | SummaryMissingFields(got: seq<string>)
    | SummaryCountNotInt(field: string)
    | SummaryTimeNotNumber
    | CamelCaseKey(at: string)

  /** The returned error list, or an exception. */
  datatype Outcome = Reported(errors: seq<Error>) | Crashed

  lemma {:induction false} Append3(e: seq<Error>, a: seq<Error>, b: seq<Error>)
    ensures e + a + b == e + (a + b)
  {
  }

  /** Appending the checks one by one is appending their concatenation. */
  lemma {:induction false} Append5(e: seq<Error>, a: seq<Error>, b: seq<Error>, c: seq<Error>, d: seq<Error>, x: seq<Error>)
    ensures e + a + b + c + d + x == e + (a + b + c + d + x)
  {
  }

  /** Errors appended to a list; an exception stays an exception. */
  function Extend(errors: seq<Error>, more: Option<seq<Error>>): Option<seq<Error>> {
    if more.Some? then Some(errors + more.value) else None
  }

  const RootKeys: set<string> := {"suspicious_accounts", "fraud_rings", "summary"}
  const AccountFields: set<string> := {"account_id", "suspicion_score", "detected_patterns", "ring_id"}
  const RingFields: set<string> := {"ring_id", "member_accounts", "pattern_type", "risk_score"}
  const SummaryFields: set<string> :=
    {"total_accounts_analyzed", "suspicious_accounts_flagged", "fraud_rings_detected", "processing_time_seconds"}
  const CountFields: seq<string> := ["total_accounts_analyzed", "suspicious_accounts_flagged", "fraud_rings_detected"]
  const ValidPatterns: set<string> := {"cycle", "smurfing", "shell"}

  // ---------------------------------------------------------------------
  // One suspicious account
  // ---------------------------------------------------------------------

  function ScoreErrors(idx: nat, score: Option<Json>): seq<Error> {
    if !IsNumber(score) then [AccountScoreNotNumber(idx)]
    else if !InRange(score.value) then [AccountScoreOutOfRange(idx, score.value)]
    else []
  }

  /** A ring id must be a string; a non-empty one must match the format. */
  function AccountRingIdErrors(idx: nat, ringId: Option<Json>): seq<Error> {
    if !IsString(ringId) then [AccountRingIdNotString(idx)]
    else if ringId.value.s != "" && !MatchesRingId(ringId.value.s) then [AccountRingIdInvalid(idx, ringId.value.s)]
    else []
  }

  /** The errors of `suspicious_accounts[idx]`; None when `account.keys()` raises. */
  function AccountErrors(idx: nat, account: Json): Option<seq<Error>> {
    if !account.JObject? then None
    else
      var f := account.fields;
      Some((if IncludesAll(f, AccountFields) then [] else [AccountMissingFields(idx, Keys(f))])
        + (if IsString(Get(f, "account_id")) then [] else [AccountIdNotString(idx)])
        + ScoreErrors(idx, Get(f, "suspicion_score"))
        + (if IsArray(Get(f, "detected_patterns")) then [] else [AccountPatternsNotArray(idx)])
        + AccountRingIdErrors(idx, Get(f, "ring_id")))
  }

  /** The errors of the first |accounts| entries, in order. */
  function AccountsErrors(accounts: seq<Json>): Option<seq<Error>>
    decreases |accounts|
  {
    if accounts == [] then Some([])
    else
      var front := AccountsErrors(accounts[..|accounts| - 1]);
      if front.Some? then Extend(front.value, AccountErrors(|accounts| - 1, accounts[|accounts| - 1])) else None
  }

  method CheckAccount(errors: seq<Error>, idx: nat, account: Json) returns (result: Option<seq<Error>>)
    ensures result == Extend(errors, AccountErrors(idx, account))
  {
    if !account.JObject? {
      return None;
    }
    var f := account.fields;
    var errs := errors;
    ghost var fieldErrs := if IncludesAll(f, AccountFields) then [] else [AccountMissingFields(idx, Keys(f))];
    if !IncludesAll(f, AccountFields) {
      errs := errs + [AccountMissingFields(idx, Keys(f))];
    }
    assert errs == errors + fieldErrs;
    ghost var idErrs := if IsString(Get(f, "account_id")) then [] else [AccountIdNotString(idx)];
    if !IsString(Get(f, "account_id")) {
      errs := errs + [AccountIdNotString(idx)];
    }
    assert errs == errors + fieldErrs + idErrs;
    var score := Get(f, "suspicion_score");
    if !IsNumber(score) {
      errs := errs + [AccountScoreNotNumber(idx)];
    } else if !InRange(score.value) {
      errs := errs + [AccountScoreOutOfRange(idx, score.value)];
    }
    assert errs == errors + fieldErrs + idErrs + ScoreErrors(idx, score);
    ghost var patternErrs := if IsArray(Get(f, "detected_patterns")) then [] else [AccountPatternsNotArray(idx)];
    if !IsArray(Get(f, "detected_patterns")) {
      errs := errs + [AccountPatternsNotArray(idx)];
    }
    assert errs == errors + fieldErrs + idErrs + ScoreErrors(idx, score) + patternErrs;
    var ringId := Get(f, "ring_id");
    if !IsString(ringId) {
      errs := errs + [AccountRingIdNotString(idx)];
    } else if ringId.value.s != "" && !MatchesRingId(ringId.value.s) {
      errs := errs + [AccountRingIdInvalid(idx, ringId.value.s)];
    }
    assert errs == errors + fieldErrs + idErrs + ScoreErrors(idx, score) + patternErrs + AccountRingIdErrors(idx, ringId);
    Append5(errors, fieldErrs, idErrs, ScoreErrors(idx, score), patternErrs, AccountRingIdErrors(idx, ringId));
    result := Some(errs);
  }

  // ---------------------------------------------------------------------
  // One fraud ring
  // ---------------------------------------------------------------------

  /** `re.match` raises on a present non-string id; `x not in set` raises on a list or dict. */
  predicate RingRaises(f: seq<(string, Json)>) {
    (Get(f, "ring_id").Some? && !Get(f, "ring_id").value.JString?)
    || (Get(f, "pattern_type").Some?
        && (Get(f, "pattern_type").value.JArray? || Get(f, "pattern_type").value.JObject?))
  }

  /** `ring.get('ring_id', '')` must match the format; an absent id fails it. */
  function RingIdErrors(idx: nat, ringId: Option<Json>): seq<Error>
    requires ringId.Some? ==> ringId.value.JString?
  {
    if ringId.Some? && MatchesRingId(ringId.value.s) then []
    else [RingIdInvalid(idx, if ringId.Some? then Some(ringId.value.s) else None)]
  }

  function MembersErrors(idx: nat, members: Option<Json>): seq<Error> {
    if !IsArray(members) then [RingMembersNotArray(idx)]
    else if |members.value.items| < 2 then [RingTooFewMembers(idx)]
    else []
  }

  function PatternErrors(idx: nat, patternType: Option<Json>): seq<Error> {
    if IsString(patternType) && patternType.value.s in ValidPatterns then []
    else [RingPatternInvalid(idx, patternType)]
  }

  function RiskErrors(idx: nat, risk: Option<Json>): seq<Error> {
    if !IsNumber(risk) then [RingRiskNotNumber(idx)]
    else if !InRange(risk.value) then [RingRiskOutOfRange(idx, risk.value)]
    else []
  }

  /** The errors of `fraud_rings[idx]`; None when the checks raise. */
  function RingErrors(idx: nat, ring: Json): Option<seq<Error>> {
    if !ring.JObject? || RingRaises(ring.fields) then None
    else
      var f := ring.fields;
      Some((if IncludesAll(f, RingFields) then [] else [RingMissingFields(idx, Keys(f))])
        + RingIdErrors(idx, Get(f, "ring_id"))
        + MembersErrors(idx, Get(f, "member_accounts"))
        + PatternErrors(idx, Get(f, "pattern_type"))
        + RiskErrors(idx, Get(f, "risk_score")))
  }

  function RingsErrors(rings: seq<Json>): Option<seq<Error>>
    decreases |rings|
  {
    if rings == [] then Some([])
    else
      var front := RingsErrors(rings[..|rings| - 1]);
      if front.Some? then Extend(front.value, RingErrors(|rings| - 1, rings[|rings| - 1])) else None
  }

  method CheckRing(errors: seq<Error>, idx: nat, ring: Json) returns (result: Option<seq<Error>>)
    ensures result == Extend(errors, RingErrors(idx, ring))
  {
    if !ring.JObject? {
      return None;
    }
    var f := ring.fields;
    var errs := errors;
    ghost var fieldErrs := if IncludesAll(f, RingFields) then [] else [RingMissingFields(idx, Keys(f))];
    if !IncludesAll(f, RingFields) {
      errs := errs + [RingMissingFields(idx, Keys(f))];
    }
    assert errs == errors + fieldErrs;
    var ringId := Get(f, "ring_id");
    if ringId.Some? && !ringId.value.JString? {
      return None;
    }
    if !(ringId.Some? && MatchesRingId(ringId.value.s)) {
      errs := errs + [RingIdInvalid(idx, if ringId.Some? then Some(ringId.value.s) else None)];
    }
    assert errs == errors + fieldErrs + RingIdErrors(idx, ringId);
    var members := Get(f, "member_accounts");
    if !IsArray(members) {
      errs := errs + [RingMembersNotArray(idx)];
    } else if |members.value.items| < 2 {
      errs := errs + [RingTooFewMembers(idx)];
    }
    assert errs == errors + fieldErrs + RingIdErrors(idx, ringId) + MembersErrors(idx, members);
    var patternType := Get(f, "pattern_type");
    if patternType.Some? && (patternType.value.JArray? || patternType.value.JObject?) {
      return None;
    }
    if !(IsString(patternType) && patternType.value.s in ValidPatterns) {
      errs := errs + [RingPatternInvalid(idx, patternType)];
    }
    assert errs == errors + fieldErrs + RingIdErrors(idx, ringId) + MembersErrors(idx, members)
      + PatternErrors(idx, patternType);
    var risk := Get(f, "risk_score");
    if !IsNumber(risk) {
      errs := errs + [RingRiskNotNumber(idx)];
    } else if !InRange(risk.value) {
      errs := errs + [RingRiskOutOfRange(idx, risk.value)];
    }
    assert errs == errors + fieldErrs + RingIdErrors(idx, ringId) + MembersErrors(idx, members)
      + PatternErrors(idx, patternType) + RiskErrors(idx, risk);
    Append5(errors, fieldErrs, RingIdErrors(idx, ringId), MembersErrors(idx, members),
            PatternErrors(idx, patternType), RiskErrors(idx, risk));
    result := Some(errs);
  }

  // ---------------------------------------------------------------------
  // The summary
  // ---------------------------------------------------------------------

  /** One error per listed field whose value is not an integer, in list order. */
  function CountErrors(f: seq<(string, Json)>, fields: seq<string>): seq<Error>
    decreases |fields|
  {
    if fields == [] then []
    else
      var field := fields[|fields| - 1];
      CountErrors(f, fields[..|fields| - 1]) + (if IsInt(Get(f, field)) then [] else [SummaryCountNotInt(field)])
  }

  /** The errors of `summary`; None when `summary.keys()` raises. */
  function SummaryErrors(summary: Json): Option<seq<Error>> {
    if !summary.JObject? then None
    else
      var f := summary.fields;
      Some((if IncludesAll(f, SummaryFields) then [] else [SummaryMissingFields(Keys(f))])
        + CountErrors(f, CountFields)
        + (if IsNumber(Get(f, "processing_time_seconds")) then [] else [SummaryTimeNotNumber]))
  }

  method CheckSummary(errors: seq<Error>, summary: Json) returns (result: Option<seq<Error>>)
    ensures result == Extend(errors, SummaryErrors(summary))
  {
    if !summary.JObject? {
      return None;
    }
    var f := summary.fields;
    var errs := errors;
    if !IncludesAll(f, SummaryFields) {
      errs := errs + [SummaryMissingFields(Keys(f))];
    }
    ghost var fieldErrs := if IncludesAll(f, SummaryFields) then [] else [SummaryMissingFields(Keys(f))];
    assert errs == errors + fieldErrs;
    for k := 0 to |CountFields|
      invariant errs == errors + (fieldErrs + CountErrors(f, CountFields[..k]))
    {
      var field := CountFields[k];
      if !IsInt(Get(f, field)) {
        errs := errs + [SummaryCountNotInt(field)];
      }
      assert CountFields[..k + 1][..k] == CountFields[..k];
    }
    assert CountFields[..|CountFields|] == CountFields;
    ghost var timeErrs := if IsNumber(Get(f, "processing_time_seconds")) then [] else [SummaryTimeNotNumber];
    if !IsNumber(Get(f, "processing_time_seconds")) {
      errs := errs + [SummaryTimeNotNumber];
    }
    assert errs == errors + (fieldErrs + CountErrors(f, CountFields) + timeErrs);
    result := Some(errs);
  }

  // ---------------------------------------------------------------------
  // has_camel_case
  // ---------------------------------------------------------------------

  /** The camelCase report of `obj` reached at `path`, depth first in item order. */
  function CamelCase(obj: Json, path: string): seq<Error>
    decreases obj, 1, 0
  {
    match obj
    case JObject(fields) => FieldsCamelCase(obj, path, |fields|)
    case JArray(items) => ItemsCamelCase(obj, path, |items|)
    case _ => []
  }

  /** The report over the first n items of a dictionary. */
  function FieldsCamelCase(obj: Json, path: string, n: nat): seq<Error>
    requires obj.JObject? && n <= |obj.fields|
    decreases obj, 0, n
  {
    if n == 0 then []
    else
      var key := obj.fields[n - 1].0;
      var at := path + "." + key;
      assert obj.fields[n - 1] in obj.fields;
      FieldsCamelCase(obj, path, n - 1)
      + (if HasCamelHump(key) then [CamelCaseKey(at)] else [])
      + CamelCase(obj.fields[n - 1].1, at)
  }

  /** The report over the first n elements of a list. */
  function ItemsCamelCase(obj: Json, path: string, n: nat): seq<Error>
    requires obj.JArray? && n <= |obj.items|
    decreases obj, 0, n
  {
    if n == 0 then []
    else
      assert obj.items[n - 1] in obj.items;
      ItemsCamelCase(obj, path, n - 1) + CamelCase(obj.items[n - 1], path + "[" + Decimal(n - 1) + "]")
  }

  // ---------------------------------------------------------------------
  // validate_contract
  // ---------------------------------------------------------------------

  function Validate(data: Json): Outcome {
    if !data.JObject? then Crashed
    else if !IncludesAll(data.fields, RootKeys) then Reported([MissingRootKeys(Keys(data.fields))])
    else
      var accounts := Elements(Get(data.fields, "suspicious_accounts").value);
      var rings := Elements(Get(data.fields, "fraud_rings").value);
      var a := if accounts.Some? then AccountsErrors(accounts.value) else None;
      var r := if rings.Some? then RingsErrors(rings.value) else None;
      var s := SummaryErrors(Get(data.fields, "summary").value);
      if a.None? || r.None? || s.None? then Crashed
      else Reported(a.value + r.value + s.value + CamelCase(data, ""))
  }

  lemma {:induction false} AccountsCrashPersists(accounts: seq<Json>, j: nat)
    requires j <= |accounts| && AccountsErrors(accounts[..j]) == None
    ensures AccountsErrors(accounts) == None
    decreases |accounts|
  {
    if j < |accounts| {
      var front := accounts[..|accounts| - 1];
      assert front[..j] == accounts[..j];
      AccountsCrashPersists(front, j);
    } else {
      assert accounts[..j] == accounts;
    }
  }

  lemma {:induction false} RingsCrashPersists(rings: seq<Json>, j: nat)
    requires j <= |rings| && RingsErrors(rings[..j]) == None
    ensures RingsErrors(rings) == None
    decreases |rings|
  {
    if j < |rings| {
      var front := rings[..|rings| - 1];
      assert front[..j] == rings[..j];
      RingsCrashPersists(front, j);
    } else {
      assert rings[..j] == rings;
    }
  }

  method CheckAccounts(accounts: seq<Json>) returns (result: Option<seq<Error>>)
    ensures result == AccountsErrors(accounts)
  {
    var errors: seq<Error> := [];
    for idx := 0 to |accounts|
      invariant AccountsErrors(accounts[..idx]) == Some(errors)
    {
      var r := CheckAccount(errors, idx, accounts[idx]);
      assert accounts[..idx + 1][..idx] == accounts[..idx];
      if r.None? {
        AccountsCrashPersists(accounts, idx + 1);
        return None;
      }
      errors := r.value;
    }
    assert accounts[..|accounts|] == accounts;
    result := Some(errors);
  }

  method CheckRings(errors: seq<Error>, rings: seq<Json>) returns (result: Option<seq<Error>>)
    ensures result == Extend(errors, RingsErrors(rings))
  {
    var errs: seq<Error> := errors;
    for idx := 0 to |rings|
      invariant RingsErrors(rings[..idx]).Some?
      invariant errs == errors + RingsErrors(rings[..idx]).value
    {
      var r := CheckRing(errs, idx, rings[idx]);
      assert rings[..idx + 1][..idx] == rings[..idx];
      if r.None? {
        RingsCrashPersists(rings, idx + 1);
        return None;
      }
      ghost var step := RingErrors(idx, rings[idx]).value;
      assert r.value == errors + RingsErrors(rings[..idx]).value + step;
      assert RingsErrors(rings[..idx + 1]).value == RingsErrors(rings[..idx]).value + step;
      Append3(errors, RingsErrors(rings[..idx]).value, step);
      errs := r.value;
    }
    assert rings[..|rings|] == rings;
    result := Some(errs);
  }

  method ValidateContract(data: Json) returns (outcome: Outcome)
    ensures outcome == Validate(data)
  {
    if !data.JObject? {
      return Crashed;
    }
    var root := data.fields;
    if !IncludesAll(root, RootKeys) {
      return Reported([MissingRootKeys(Keys(root))]);
    }
    assert "suspicious_accounts" in RootKeys && "fraud_rings" in RootKeys && "summary" in RootKeys;
    var accounts := Elements(Get(root, "suspicious_accounts").value);
    if accounts.None? {
      return Crashed;
    }
    var errors := CheckAccounts(accounts.value);
    if errors.None? {
      return Crashed;
    }
    var rings := Elements(Get(root, "fraud_rings").value);
    if rings.None? {
      return Crashed;
    }
    errors := CheckRings(errors.value, rings.value);
    if errors.None? {
      return Crashed;
    }
    errors := CheckSummary(errors.value, Get(root, "summary").value);
    if errors.None? {
      return Crashed;
    }
    outcome := Reported(errors.value + CamelCase(data, ""));
  }

  // ---------------------------------------------------------------------
  // Properties
  // ---------------------------------------------------------------------

  /** A dictionary lacking a root key yields exactly one error, listing the keys it has. */
  lemma {:induction false} MissingRootKeysOneError(data: Json)
    requires data.JObject?
    requires exists k :: k in RootKeys && Get(data.fields, k).None?
    ensures Validate(data) == Reported([MissingRootKeys(Keys(data.fields))])
    ensures |Validate(data).errors| == 1
  {
  }

  /** Ids as the ring grouper writes them pass the format check exactly below 1000. */
  lemma {:induction false} RingIdAccepted(n: nat)
    ensures MatchesRingId(RingId(n)) <==> n < 1000
  {
    if n < 1000 {
      RingIdShape(n);
    } else {
      assert Pow10(3) == 1000;
      DecimalLengthAtLeast(n, 3);
      Pad3Value(n);
      var id := RingId(n);
      assert id[5..] == Pad3(n);
      if |id| == 9 {
        assert IsDigit(id[5..][3]);
      }
    }
  }

  /**
   * The format accepts exactly a grouper id below 1000, optionally followed
   * by one newline.
   */
  lemma {:induction false} MatchesRingIdIff(s: string)
    ensures MatchesRingId(s) <==> exists n :: 0 <= n < 1000 && (s == RingId(n) || s == RingId(n) + "\n")
  {
    if MatchesRingId(s) {
      var n := MatchesRingIdSound(s);
    }
    if exists n :: 0 <= n < 1000 && (s == RingId(n) || s == RingId(n) + "\n") {
      var n :| 0 <= n < 1000 && (s == RingId(n) || s == RingId(n) + "\n");
      MatchesRingIdComplete(s, n);
    }
  }

  /** A matching string names the grouper id its three digits spell. */
  lemma {:induction false} MatchesRingIdSound(s: string) returns (n: nat)
    requires MatchesRingId(s)
    ensures n < 1000 && (s == RingId(n) || s == RingId(n) + "\n")
  {
    var digits := s[5..8];
    n := DecimalValue(digits);
    DecimalValueBound(digits);
    assert Pow10(3) == 1000;
    RingIdShape(n);
    var id := RingId(n);
    DigitsInjective(digits, id[5..]);
    assert s[..8] == id by {
      assert s[..8] == s[..5] + digits;
      assert id == id[..5] + id[5..];
    }
    if |s| == 9 {
      assert s == s[..8] + "\n";
    } else {
      assert s == s[..8];
    }
  }

  /** Every grouper id below 1000, with or without a trailing newline, matches. */
  lemma {:induction false} MatchesRingIdComplete(s: string, n: nat)
    requires n < 1000 && (s == RingId(n) || s == RingId(n) + "\n")
    ensures MatchesRingId(s)
  {
    RingIdShape(n);
    assert s[..8] == RingId(n);
    assert s[5..8] == RingId(n)[5..];
  }

  /** `suspicious_accounts[i].ring_id`: '' passes; a non-empty string must match; anything else is not a string. */
  lemma {:induction false} AccountRingIdRule(idx: nat, account: Json)
    requires account.JObject?
    ensures var ringId := Get(account.fields, "ring_id");
      forall s :: AccountRingIdInvalid(idx, s) in AccountErrors(idx, account).value
        <==> ringId == Some(JString(s)) && s != "" && !MatchesRingId(s)
    ensures AccountRingIdNotString(idx) in AccountErrors(idx, account).value
      <==> !IsString(Get(account.fields, "ring_id"))
  {
  }

  /** `suspicion_score`: an error exactly when it is not a number, or a number outside [0,100]. */
  lemma {:induction false} AccountScoreRule(idx: nat, account: Json)
    requires account.JObject?
    ensures var score := Get(account.fields, "suspicion_score");
      AccountScoreNotNumber(idx) in AccountErrors(idx, account).value <==> !IsNumber(score)
    ensures var score := Get(account.fields, "suspicion_score");
      forall v :: AccountScoreOutOfRange(idx, v) in AccountErrors(idx, account).value
        <==> IsNumber(score) && score.value == v && !InRange(v)
  {
  }

  /** `fraud_rings[i].ring_id` must be present and match; an absent id is reported as None. */
  lemma {:induction false} RingIdRule(idx: nat, ring: Json)
    requires ring.JObject? && !RingRaises(ring.fields)
    ensures var ringId := Get(ring.fields, "ring_id");
      (exists shown :: RingIdInvalid(idx, shown) in RingErrors(idx, ring).value)
        <==> !(ringId.Some? && MatchesRingId(ringId.value.s))
  {
    var ringId := Get(ring.fields, "ring_id");
    if !(ringId.Some? && MatchesRingId(ringId.value.s)) {
      assert RingIdInvalid(idx, if ringId.Some? then Some(ringId.value.s) else None) in RingErrors(idx, ring).value;
    }
  }

  /** `member_accounts` must be a list of at least two members. */
  lemma {:induction false} RingMembersRule(idx: nat, ring: Json)
    requires ring.JObject? && !RingRaises(ring.fields)
    ensures var members := Get(ring.fields, "member_accounts");
      RingTooFewMembers(idx) in RingErrors(idx, ring).value <==> (IsArray(members) && |members.value.items| < 2)
    ensures RingMembersNotArray(idx) in RingErrors(idx, ring).value
      <==> !IsArray(Get(ring.fields, "member_accounts"))
  {
  }

  /** `pattern_type` must be one of cycle, smurfing, shell. */
  lemma {:induction false} RingPatternRule(idx: nat, ring: Json)
    requires ring.JObject? && !RingRaises(ring.fields)
    ensures var patternType := Get(ring.fields, "pattern_type");
      (RingPatternInvalid(idx, patternType) in RingErrors(idx, ring).value)
        <==> !(IsString(patternType) && patternType.value.s in ValidPatterns)
  {
  }

  /** `risk_score`: an error exactly when it is not a number, or a number outside [0,100]. */
  lemma {:induction false} RingRiskRule(idx: nat, ring: Json)
    requires ring.JObject? && !RingRaises(ring.fields)
    ensures RingRiskNotNumber(idx) in RingErrors(idx, ring).value <==> !IsNumber(Get(ring.fields, "risk_score"))
    ensures var risk := Get(ring.fields, "risk_score");
      forall v :: RingRiskOutOfRange(idx, v) in RingErrors(idx, ring).value
        <==> (IsNumber(risk) && risk.value == v && !InRange(v))
  {
  }

  /** Each of the three counts that is not an integer yields its own error. */
  lemma {:induction false} CountErrorsIff(f: seq<(string, Json)>, fields: seq<string>, field: string)
    ensures SummaryCountNotInt(field) in CountErrors(f, fields) <==> field in fields && !IsInt(Get(f, field))
    ensures |CountErrors(f, fields)| <= |fields|
    decreases |fields|
  {
    if fields != [] {
      var front := fields[..|fields| - 1];
      CountErrorsIff(f, front, field);
      assert fields == front + [fields[|fields| - 1]];
    }
  }

  lemma {:induction false} SummaryCountRule(summary: Json, field: string)
    requires summary.JObject?
    ensures SummaryCountNotInt(field) in SummaryErrors(summary).value
      <==> field in CountFields && !IsInt(Get(summary.fields, field))
  {
    CountErrorsIff(summary.fields, CountFields, field);
  }

  // ---------------------------------------------------------------------
  // has_camel_case against a reference: walks by item position
  // ---------------------------------------------------------------------

  /**
   * The value reached from `obj` by following item positions (of a
   * dictionary's items or a list's elements), with the path the report
   * prints for it.
   */
  function Walk(obj: Json, path: string, steps: seq<nat>): Option<(Json, string)>
    decreases |steps|
  {
    if steps == [] then Some((obj, path))
    else
      var j := steps[0];
      match obj
      case JObject(fields) =>
        if j < |fields| then Walk(fields[j].1, path + "." + fields[j].0, steps[1..]) else None
      case JArray(items) =>
        if j < |items| then Walk(items[j], path + "[" + Decimal(j) + "]", steps[1..]) else None
      case _ => None
  }

  /** `e` reports the k-th key of the dictionary reached by `steps`, and that key has a camel hump. */
  predicate CamelKeyAt(obj: Json, path: string, steps: seq<nat>, k: nat, e: Error) {
    var w := Walk(obj, path, steps);
    w.Some? && w.value.0.JObject? && k < |w.value.0.fields|
    && HasCamelHump(w.value.0.fields[k].0)
    && e == CamelCaseKey(w.value.1 + "." + w.value.0.fields[k].0)
  }

  lemma {:induction false} CamelCaseSound(obj: Json, path: string, e: Error) returns (steps: seq<nat>, k: nat)
    requires e in CamelCase(obj, path)
    ensures CamelKeyAt(obj, path, steps, k, e)
    decreases obj, 1, 0
  {
    match obj
    case JObject(fields) =>
      steps, k := FieldsCamelCaseSound(obj, path, |fields|, e);
    case JArray(items) =>
      steps, k := ItemsCamelCaseSound(obj, path, |items|, e);
  }

  lemma {:induction false} FieldsCamelCaseSound(obj: Json, path: string, n: nat, e: Error) returns (steps: seq<nat>, k: nat)
    requires obj.JObject? && n <= |obj.fields| && e in FieldsCamelCase(obj, path, n)
    ensures CamelKeyAt(obj, path, steps, k, e)
    decreases obj, 0, n
  {
    var key := obj.fields[n - 1].0;
    var child := obj.fields[n - 1].1;
    var at := path + "." + key;
    assert obj.fields[n - 1] in obj.fields;
    if e in FieldsCamelCase(obj, path, n - 1) {
      steps, k := FieldsCamelCaseSound(obj, path, n - 1, e);
    } else if e in CamelCase(child, at) {
      var rest, k' := CamelCaseSound(child, at, e);
      steps, k := [n - 1] + rest, k';
      assert steps[1..] == rest;
    } else {
      steps, k := [], n - 1;
    }
  }

  lemma {:induction false} ItemsCamelCaseSound(obj: Json, path: string, n: nat, e: Error) returns (steps: seq<nat>, k: nat)
    requires obj.JArray? && n <= |obj.items| && e in ItemsCamelCase(obj, path, n)
    ensures CamelKeyAt(obj, path, steps, k, e)
    decreases obj, 0, n
  {
    var child := obj.items[n - 1];
    var at := path + "[" + Decimal(n - 1) + "]";
    assert child in obj.items;
    if e in ItemsCamelCase(obj, path, n - 1) {
      steps, k := ItemsCamelCaseSound(obj, path, n - 1, e);
    } else {
      var rest, k' := CamelCaseSound(child, at, e);
      steps, k := [n - 1] + rest, k';
      assert steps[1..] == rest;
    }
  }

  lemma {:induction false} FieldsCamelCaseGrows(obj: Json, path: string, m: nat, n: nat, e: Error)
    requires obj.JObject? && m <= n <= |obj.fields| && e in FieldsCamelCase(obj, path, m)
    ensures e in FieldsCamelCase(obj, path, n)
    decreases n
  {
    if m < n {
      FieldsCamelCaseGrows(obj, path, m, n - 1, e);
    }
  }

  lemma {:induction false} ItemsCamelCaseGrows(obj: Json, path: string, m: nat, n: nat, e: Error)
    requires obj.JArray? && m <= n <= |obj.items| && e in ItemsCamelCase(obj, path, m)
    ensures e in ItemsCamelCase(obj, path, n)
    decreases n
  {
    if m < n {
      ItemsCamelCaseGrows(obj, path, m, n - 1, e);
    }
  }

  lemma {:induction false} CamelCaseComplete(obj: Json, path: string, steps: seq<nat>, k: nat, e: Error)
    requires CamelKeyAt(obj, path, steps, k, e)
    ensures e in CamelCase(obj, path)
    decreases |steps|
  {
    if steps == [] {
      var key := obj.fields[k].0;
      assert e in FieldsCamelCase(obj, path, k + 1);
      FieldsCamelCaseGrows(obj, path, k + 1, |obj.fields|, e);
    } else {
      var j := steps[0];
      match obj
      case JObject(fields) =>
        var at := path + "." + fields[j].0;
        CamelCaseComplete(fields[j].1, at, steps[1..], k, e);
        assert e in FieldsCamelCase(obj, path, j + 1);
        FieldsCamelCaseGrows(obj, path, j + 1, |fields|, e);
      case JArray(items) =>
        var at := path + "[" + Decimal(j) + "]";
        CamelCaseComplete(items[j], at, steps[1..], k, e);
        assert e in ItemsCamelCase(obj, path, j + 1);
        ItemsCamelCaseGrows(obj, path, j + 1, |items|, e);
    }
  }

  /**
   * `has_camel_case` reports exactly the keys with a camel hump of every
   * dictionary reachable through dictionaries and lists, each at its path.
   */
  lemma {:induction false} CamelCaseIff(obj: Json, path: string, e: Error)
    ensures e in CamelCase(obj, path) <==> exists steps, k :: CamelKeyAt(obj, path, steps, k, e)
  {
    if e in CamelCase(obj, path) {
      var steps, k := CamelCaseSound(obj, path, e);
    }
    if exists steps, k :: CamelKeyAt(obj, path, steps, k, e) {
      var steps, k :| CamelKeyAt(obj, path, steps, k, e);
      CamelCaseComplete(obj, path, steps, k, e);
    }
  }

  // ---------------------------------------------------------------------
  // The report as a whole: which check an error comes from
  // ---------------------------------------------------------------------

  /** An error about `suspicious_accounts[idx]`. */
  predicate AboutAccount(e: Error, idx: nat) {
    IsAccountError(e) && e.account == idx
  }

  predicate IsAccountError(e: Error) {
    e.AccountMissingFields? || e.AccountIdNotString? || e.AccountScoreNotNumber? || e.AccountScoreOutOfRange?
    || e.AccountPatternsNotArray? || e.AccountRingIdNotString? || e.AccountRingIdInvalid?
  }

  /** An error about `fraud_rings[idx]`. */
  predicate AboutRing(e: Error, idx: nat) {
    IsRingError(e) && e.ring == idx
  }

  predicate IsRingError(e: Error) {
    e.RingMissingFields? || e.RingIdInvalid? || e.RingMembersNotArray? || e.RingTooFewMembers?
    || e.RingPatternInvalid? || e.RingRiskNotNumber? || e.RingRiskOutOfRange?
  }

  predicate AboutSummary(e: Error) {
    e.SummaryMissingFields? || e.SummaryCountNotInt? || e.SummaryTimeNotNumber?
  }

  lemma {:induction false} AccountErrorsTagged(idx: nat, account: Json, e: Error)
    requires AccountErrors(idx, account).Some? && e in AccountErrors(idx, account).value
    ensures AboutAccount(e, idx)
  {
  }

  lemma {:induction false} RingErrorsTagged(idx: nat, ring: Json, e: Error)
    requires RingErrors(idx, ring).Some? && e in RingErrors(idx, ring).value
    ensures AboutRing(e, idx)
  {
    var f := ring.fields;
    var fieldErrs := if IncludesAll(f, RingFields) then [] else [RingMissingFields(idx, Keys(f))];
    var idErrs := RingIdErrors(idx, Get(f, "ring_id"));
    var memberErrs := MembersErrors(idx, Get(f, "member_accounts"));
    var patternErrs := PatternErrors(idx, Get(f, "pattern_type"));
    var riskErrs := RiskErrors(idx, Get(f, "risk_score"));
    assert RingErrors(idx, ring).value == fieldErrs + idErrs + memberErrs + patternErrs + riskErrs;
    assert e in fieldErrs || e in idErrs || e in memberErrs || e in patternErrs || e in riskErrs;
  }

  lemma {:induction false} CountErrorsTagged(f: seq<(string, Json)>, fields: seq<string>, e: Error)
    requires e in CountErrors(f, fields)
    ensures e.SummaryCountNotInt? && e.field in fields
    decreases |fields|
  {
    var front := fields[..|fields| - 1];
    if e in CountErrors(f, front) {
      CountErrorsTagged(f, front, e);
    }
  }

  lemma {:induction false} SummaryErrorsTagged(summary: Json, e: Error)
    requires SummaryErrors(summary).Some? && e in SummaryErrors(summary).value
    ensures AboutSummary(e)
  {
    if e in CountErrors(summary.fields, CountFields) {
      CountErrorsTagged(summary.fields, CountFields, e);
    }
  }

  /** Every error the key walk reports is a camel-case error. */
  lemma {:induction false} CamelCaseTagged(obj: Json, path: string, e: Error)
    requires e in CamelCase(obj, path)
    ensures e.CamelCaseKey?
  {
    var steps, k := CamelCaseSound(obj, path, e);
  }

  /** The accounts' errors are the errors of each account, and no account raised. */
  lemma {:induction false} AccountsErrorsIff(accounts: seq<Json>, e: Error)
    requires AccountsErrors(accounts).Some?
    ensures forall i :: 0 <= i < |accounts| ==> AccountErrors(i, accounts[i]).Some?
    ensures e in AccountsErrors(accounts).value
      <==> exists i :: 0 <= i < |accounts| && e in AccountErrors(i, accounts[i]).value
  {
    AccountsErrorsEach(accounts);
    if e in AccountsErrors(accounts).value {
      var i := AccountsErrorsSound(accounts, e);
    }
    if exists i :: 0 <= i < |accounts| && e in AccountErrors(i, accounts[i]).value {
      var i :| 0 <= i < |accounts| && e in AccountErrors(i, accounts[i]).value;
      AccountsErrorsComplete(accounts, i, e);
    }
  }

  lemma {:induction false} AccountsErrorsEach(accounts: seq<Json>)
    requires AccountsErrors(accounts).Some?
    ensures forall i :: 0 <= i < |accounts| ==> AccountErrors(i, accounts[i]).Some?
    decreases |accounts|
  {
    if accounts != [] {
      var n := |accounts|;
      var front := accounts[..n - 1];
      assert AccountsErrors(accounts) == Extend(AccountsErrors(front).value, AccountErrors(n - 1, accounts[n - 1]));
      AccountsErrorsEach(front);
      forall i | 0 <= i < n
        ensures AccountErrors(i, accounts[i]).Some?
      {
        if i != n - 1 {
          assert front[i] == accounts[i];
        }
      }
    }
  }

  lemma {:induction false} AccountsErrorsSound(accounts: seq<Json>, e: Error) returns (i: nat)
    requires AccountsErrors(accounts).Some? && e in AccountsErrors(accounts).value
    ensures i < |accounts| && AccountErrors(i, accounts[i]).Some? && e in AccountErrors(i, accounts[i]).value
    decreases |accounts|
  {
    var n := |accounts|;
    var front := accounts[..n - 1];
    var before := AccountsErrors(front);
    assert AccountsErrors(accounts) == Extend(before.value, AccountErrors(n - 1, accounts[n - 1]));
    if e in before.value {
      i := AccountsErrorsSound(front, e);
      assert front[i] == accounts[i];
    } else {
      i := n - 1;
    }
  }

  lemma {:induction false} AccountsErrorsComplete(accounts: seq<Json>, i: nat, e: Error)
    requires AccountsErrors(accounts).Some?
    requires i < |accounts| && AccountErrors(i, accounts[i]).Some? && e in AccountErrors(i, accounts[i]).value
    ensures e in AccountsErrors(accounts).value
    decreases |accounts|
  {
    var n := |accounts|;
    var front := accounts[..n - 1];
    var before := AccountsErrors(front);
    var last := AccountErrors(n - 1, accounts[n - 1]);
    assert before.Some? && last.Some?;
    assert AccountsErrors(accounts).value == before.value + last.value;
    if i == n - 1 {
      assert e in last.value;
    } else {
      assert front[i] == accounts[i];
      AccountsErrorsComplete(front, i, e);
      assert e in before.value;
    }
  }

  /** The rings' errors are the errors of each ring, and no ring raised. */
  lemma {:induction false} RingsErrorsIff(rings: seq<Json>, e: Error)
    requires RingsErrors(rings).Some?
    ensures forall i :: 0 <= i < |rings| ==> RingErrors(i, rings[i]).Some?
    ensures e in RingsErrors(rings).value
      <==> exists i :: 0 <= i < |rings| && e in RingErrors(i, rings[i]).value
  {
    RingsErrorsEach(rings);
    if e in RingsErrors(rings).value {
      var i := RingsErrorsSound(rings, e);
    }
    if exists i :: 0 <= i < |rings| && e in RingErrors(i, rings[i]).value {
      var i :| 0 <= i < |rings| && e in RingErrors(i, rings[i]).value;
      RingsErrorsComplete(rings, i, e);
    }
  }

  lemma {:induction false} RingsErrorsEach(rings: seq<Json>)
    requires RingsErrors(rings).Some?
    ensures forall i :: 0 <= i < |rings| ==> RingErrors(i, rings[i]).Some?
    decreases |rings|
  {
    if rings != [] {
      var n := |rings|;
      var front := rings[..n - 1];
      assert RingsErrors(rings) == Extend(RingsErrors(front).value, RingErrors(n - 1, rings[n - 1]));
      RingsErrorsEach(front);
      forall i | 0 <= i < n
        ensures RingErrors(i, rings[i]).Some?
      {
        if i != n - 1 {
          assert front[i] == rings[i];
        }
      }
    }
  }

  lemma {:induction false} RingsErrorsSound(rings: seq<Json>, e: Error) returns (i: nat)
    requires RingsErrors(rings).Some? && e in RingsErrors(rings).value
    ensures i < |rings| && RingErrors(i, rings[i]).Some? && e in RingErrors(i, rings[i]).value
    decreases |rings|
  {
    var n := |rings|;
    var front := rings[..n - 1];
    var before := RingsErrors(front);
    assert RingsErrors(rings) == Extend(before.value, RingErrors(n - 1, rings[n - 1]));
    if e in before.value {
      i := RingsErrorsSound(front, e);
      assert front[i] == rings[i];
    } else {
      i := n - 1;
    }
  }

  lemma {:induction false} RingsErrorsComplete(rings: seq<Json>, i: nat, e: Error)
    requires RingsErrors(rings).Some?
    requires i < |rings| && RingErrors(i, rings[i]).Some? && e in RingErrors(i, rings[i]).value
    ensures e in RingsErrors(rings).value
    decreases |rings|
  {
    var n := |rings|;
    var front := rings[..n - 1];
    var before := RingsErrors(front);
    var last := RingErrors(n - 1, rings[n - 1]);
    assert before.Some? && last.Some?;
    assert RingsErrors(rings).value == before.value + last.value;
    if i == n - 1 {
      assert e in last.value;
    } else {
      assert front[i] == rings[i];
      RingsErrorsComplete(front, i, e);
      assert e in before.value;
    }
  }

  /** Every error of the rings is a ring error. */
  lemma {:induction false} RingsErrorsTagged(rings: seq<Json>)
    requires RingsErrors(rings).Some?
    ensures forall x :: x in RingsErrors(rings).value ==> IsRingError(x)
    decreases |rings|
  {
    if rings != [] {
      var n := |rings|;
      var front := rings[..n - 1];
      RingsErrorsTagged(front);
      forall x | x in RingErrors(n - 1, rings[n - 1]).value
        ensures IsRingError(x)
      {
        RingErrorsTagged(n - 1, rings[n - 1], x);
      }
    }
  }

  /** Every error of the accounts is an account error. */
  lemma {:induction false} AccountsErrorsTagged(accounts: seq<Json>)
    requires AccountsErrors(accounts).Some?
    ensures forall x :: x in AccountsErrors(accounts).value ==> IsAccountError(x)
    decreases |accounts|
  {
    if accounts != [] {
      var n := |accounts|;
      var front := accounts[..n - 1];
      AccountsErrorsTagged(front);
      forall x | x in AccountErrors(n - 1, accounts[n - 1]).value
        ensures IsAccountError(x)
      {
        AccountErrorsTagged(n - 1, accounts[n - 1], x);
      }
    }
  }

  /** Checking more accounts only appends errors: the errors of the first j stay a prefix. */
  lemma {:induction false} AccountsErrorsGrow(accounts: seq<Json>, j: nat)
    requires j <= |accounts| && AccountsErrors(accounts).Some?
    ensures AccountsErrors(accounts[..j]).Some?
    ensures AccountsErrors(accounts[..j]).value <= AccountsErrors(accounts).value
    decreases |accounts|
  {
    if j < |accounts| {
      var front := accounts[..|accounts| - 1];
      assert front[..j] == accounts[..j];
      AccountsErrorsGrow(front, j);
    } else {
      assert accounts[..j] == accounts;
    }
  }

  /** The value under a root key, for a dictionary holding all of them. */
  function Section(data: Json, key: string): Json
    requires data.JObject? && IncludesAll(data.fields, RootKeys) && key in RootKeys
  {
    Get(data.fields, key).value
  }

  /**
   * A returned report lists the accounts' errors, then the rings', then the
   * summary's, then the camel-case keys; so a returned report means the two
   * lists were lists and the summary a dictionary.
   */
  lemma {:induction false} ReportedSections(data: Json)
    requires data.JObject? && IncludesAll(data.fields, RootKeys) && Validate(data).Reported?
    ensures Elements(Section(data, "suspicious_accounts")).Some?
    ensures Elements(Section(data, "fraud_rings")).Some?
    ensures AccountsErrors(Elements(Section(data, "suspicious_accounts")).value).Some?
    ensures RingsErrors(Elements(Section(data, "fraud_rings")).value).Some?
    ensures SummaryErrors(Section(data, "summary")).Some?
    ensures Validate(data).errors
      == AccountsErrors(Elements(Section(data, "suspicious_accounts")).value).value
      + RingsErrors(Elements(Section(data, "fraud_rings")).value).value
      + SummaryErrors(Section(data, "summary")).value
      + CamelCase(data, "")
  {
  }

  /** In a returned report, a ring error can only come from the rings' checks. */
  lemma {:induction false} ReportedRingsPart(data: Json, e: Error)
    requires data.JObject? && IncludesAll(data.fields, RootKeys) && Validate(data).Reported?
    requires IsRingError(e)
    ensures Elements(Section(data, "fraud_rings")).Some?
    ensures RingsErrors(Elements(Section(data, "fraud_rings")).value).Some?
    ensures e in Validate(data).errors <==> e in RingsErrors(Elements(Section(data, "fraud_rings")).value).value
  {
    ReportedSections(data);
    var accounts := Elements(Section(data, "suspicious_accounts")).value;
    var summary := Section(data, "summary");
    AccountsErrorsTagged(accounts);
    if e in SummaryErrors(summary).value {
      SummaryErrorsTagged(summary, e);
    }
    if e in CamelCase(data, "") {
      CamelCaseTagged(data, "", e);
    }
  }

  /** In a returned report, an account error can only come from the accounts' checks. */
  lemma {:induction false} ReportedAccountsPart(data: Json, e: Error)
    requires data.JObject? && IncludesAll(data.fields, RootKeys) && Validate(data).Reported?
    requires IsAccountError(e)
    ensures Elements(Section(data, "suspicious_accounts")).Some?
    ensures AccountsErrors(Elements(Section(data, "suspicious_accounts")).value).Some?
    ensures e in Validate(data).errors
      <==> e in AccountsErrors(Elements(Section(data, "suspicious_accounts")).value).value
  {
    ReportedSections(data);
    var rings := Elements(Section(data, "fraud_rings")).value;
    var summary := Section(data, "summary");
    RingsErrorsTagged(rings);
    if e in SummaryErrors(summary).value {
      SummaryErrorsTagged(summary, e);
    }
    if e in CamelCase(data, "") {
      CamelCaseTagged(data, "", e);
    }
  }

  /** In a returned report, the ring errors are exactly those of the rings, each under its own index. */
  lemma {:induction false} ReportedRingError(data: Json, e: Error)
    requires data.JObject? && IncludesAll(data.fields, RootKeys) && Validate(data).Reported?
    requires IsRingError(e)
    ensures Elements(Section(data, "fraud_rings")).Some?
    ensures var rings := Elements(Section(data, "fraud_rings")).value;
      forall i :: 0 <= i < |rings| ==> rings[i].JObject? && !RingRaises(rings[i].fields)
    ensures var rings := Elements(Section(data, "fraud_rings")).value;
      (e in Validate(data).errors) <==> e.ring < |rings| && e in RingErrors(e.ring, rings[e.ring]).value
  {
    ReportedRingsPart(data, e);
    var rings := Elements(Section(data, "fraud_rings")).value;
    RingsErrorsIff(rings, e);
    if e in RingsErrors(rings).value {
      var i :| 0 <= i < |rings| && e in RingErrors(i, rings[i]).value;
      RingErrorsTagged(i, rings[i], e);
    }
  }

  /** In a returned report, the account errors are exactly those of the accounts, each under its own index. */
  lemma {:induction false} ReportedAccountError(data: Json, e: Error)
    requires data.JObject? && IncludesAll(data.fields, RootKeys) && Validate(data).Reported?
    requires IsAccountError(e)
    ensures Elements(Section(data, "suspicious_accounts")).Some?
    ensures var accounts := Elements(Section(data, "suspicious_accounts")).value;
      forall i :: 0 <= i < |accounts| ==> accounts[i].JObject?
    ensures var accounts := Elements(Section(data, "suspicious_accounts")).value;
      (e in Validate(data).errors)
        <==> e.account < |accounts| && e in AccountErrors(e.account, accounts[e.account]).value
  {
    ReportedAccountsPart(data, e);
    var accounts := Elements(Section(data, "suspicious_accounts")).value;
    AccountsErrorsIff(accounts, e);
    if e in AccountsErrors(accounts).value {
      var i :| 0 <= i < |accounts| && e in AccountErrors(i, accounts[i]).value;
      AccountErrorsTagged(i, accounts[i], e);
    }
  }

  /**
   * In a returned report, ring `idx` is reported with an invalid id exactly
   * when there is such a ring and its `ring_id` is absent or does not match
   * the format.
   */
  lemma {:induction false} ReportedRingIdInvalid(data: Json, idx: nat)
    requires data.JObject? && IncludesAll(data.fields, RootKeys) && Validate(data).Reported?
    ensures Elements(Section(data, "fraud_rings")).Some?
    ensures var rings := Elements(Section(data, "fraud_rings")).value;
      forall i :: 0 <= i < |rings| ==> rings[i].JObject? && !RingRaises(rings[i].fields)
    ensures var rings := Elements(Section(data, "fraud_rings")).value;
      (exists shown :: RingIdInvalid(idx, shown) in Validate(data).errors)
        <==> (idx < |rings|
              && var ringId := Get(rings[idx].fields, "ring_id");
              !(ringId.Some? && MatchesRingId(ringId.value.s)))
  {
    var rings := Elements(Section(data, "fraud_rings")).value;
    ReportedRingError(data, RingIdInvalid(idx, None));
    if exists shown :: RingIdInvalid(idx, shown) in Validate(data).errors {
      var shown :| RingIdInvalid(idx, shown) in Validate(data).errors;
      ReportedRingError(data, RingIdInvalid(idx, shown));
      RingIdRule(idx, rings[idx]);
    }
    if idx < |rings| {
      RingIdRule(idx, rings[idx]);
      if exists shown :: RingIdInvalid(idx, shown) in RingErrors(idx, rings[idx]).value {
        var shown :| RingIdInvalid(idx, shown) in RingErrors(idx, rings[idx]).value;
        ReportedRingError(data, RingIdInvalid(idx, shown));
      }
    }
  }

  /**
   * In a returned report, account `idx` is reported with the invalid ring id
   * `s` exactly when there is such an account and its `ring_id` is the
   * non-empty string `s` that does not match the format.
   */
  lemma {:induction false} ReportedAccountRingIdInvalid(data: Json, idx: nat, s: string)
    requires data.JObject? && IncludesAll(data.fields, RootKeys) && Validate(data).Reported?
    ensures Elements(Section(data, "suspicious_accounts")).Some?
    ensures var accounts := Elements(Section(data, "suspicious_accounts")).value;
      forall i :: 0 <= i < |accounts| ==> accounts[i].JObject?
    ensures var accounts := Elements(Section(data, "suspicious_accounts")).value;
      (AccountRingIdInvalid(idx, s) in Validate(data).errors)
        <==> (idx < |accounts| && Get(accounts[idx].fields, "ring_id") == Some(JString(s))
              && s != "" && !MatchesRingId(s))
  {
    var accounts := Elements(Section(data, "suspicious_accounts")).value;
    ReportedAccountError(data, AccountRingIdInvalid(idx, s));
    if idx < |accounts| {
      AccountRingIdRule(idx, accounts[idx]);
    }
  }
}

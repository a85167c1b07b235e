/** The proxy's input validators (server/validators.js), written as the
    schema library evaluates them: it stops at the first failure
    (abortEarly), checks an object's declared keys in declaration order and
    only then its undeclared keys, and for each key checks, in order,
    presence, the allowed-values list, the type, the safe-number range and
    then the rules in the order written. Values are JSON as parsed by the
    server; conversion of strings to numbers or objects is not modelled. */
module Validators {
  import opened Wrappers
  import opened Text
  import opened JsonData

  // ---------------------------------------------------------------------
  // Messages, in the library's default wording

  function Quoted(key: string): string
  {
    "\"" + key + "\""
  }

  function IsRequired(key: string): string { Quoted(key) + " is required" }
  function NotANumber(key: string): string { Quoted(key) + " must be a number" }
  function NotSafe(key: string): string { Quoted(key) + " must be a safe number" }
  function NotInteger(key: string): string { Quoted(key) + " must be an integer" }
  function NotPositive(key: string): string { Quoted(key) + " must be a positive number" }
  function BelowMin(key: string, min: nat): string { Quoted(key) + " must be greater than or equal to " + NatToString(min) }
  function AboveMax(key: string, max: nat): string { Quoted(key) + " must be less than or equal to " + NatToString(max) }
  function NotAnObject(key: string): string { Quoted(key) + " must be of type object" }
  function NotAString(key: string): string { Quoted(key) + " must be a string" }
  function EmptyString(key: string): string { Quoted(key) + " is not allowed to be empty" }
  function NotAUri(key: string): string { Quoted(key) + " must be a valid uri" }
  function NotAllowed(key: string): string { Quoted(key) + " is not allowed" }

  const TypeChoices: string := "[single, subscription]"

  function NotOneOf(key: string): string { Quoted(key) + " must be one of " + TypeChoices }

  /** The label of a value validated on its own, not as an object member. */
  const ValueLabel: string := "value"

  // ---------------------------------------------------------------------
  // The least undeclared key

  /** `k` is the least of `keys` in character order. */
  predicate IsLeast(k: string, keys: set<string>)
  {
    k in keys && forall y :: y in keys ==> y == k || LexLess(k, y)
  }

  lemma {:induction false} LeastKeyExists(keys: set<string>)
    requires keys != {}
    ensures exists k :: IsLeast(k, keys)
    decreases |keys|
  {
    var x :| x in keys;
    if keys != {x} {
      LeastKeyExists(keys - {x});
      var m :| IsLeast(m, keys - {x});
      LexTotal(x, m);
      if LexLess(x, m) {
        forall y | y in keys
          ensures y == x || LexLess(x, y)
        {
          if y != x && y != m {
            LexTransitive(x, m, y);
          }
        }
        assert IsLeast(x, keys);
      } else {
        assert IsLeast(m, keys);
      }
    } else {
      assert IsLeast(x, keys);
    }
  }

  lemma LeastKeyUnique(keys: set<string>)
    ensures forall a, b :: IsLeast(a, keys) && IsLeast(b, keys) ==> a == b
  {
    forall a, b | IsLeast(a, keys) && IsLeast(b, keys)
      ensures a == b
    {
      if a != b {
        LexAsymmetric(a, b);
      }
    }
  }

  /** The undeclared key reported: the least one in character order (the
      library reports the first in property order, which a map does not keep). */
  function LeastKey(keys: set<string>): (k: string)
    requires keys != {}
    ensures IsLeast(k, keys)
  {
    LeastKeyExists(keys);
    LeastKeyUnique(keys);
    var k :| IsLeast(k, keys);
    k
  }

  // ---------------------------------------------------------------------
  // Field checks; `None` stands for a missing key, the answer is the first
  // failure or `None` when the value passes

  /** number().integer().positive().required() */
  function CheckPositiveInteger(key: string, v: Option<Json>): (r: Option<string>)
    ensures r.None? <==> v.Some? && v.value.JNum? && IsSafe(v.value.n) && IsInteger(v.value.n) && v.value.n > 0.0
    ensures v.None? ==> r == Some(IsRequired(key))
    ensures v.Some? && !v.value.JNum? ==> r == Some(NotANumber(key))
  {
    match v
    case None => Some(IsRequired(key))
    case Some(JNum(n)) =>
      if !IsSafe(n) then Some(NotSafe(key))
      else if !IsInteger(n) then Some(NotInteger(key))
      else if n <= 0.0 then Some(NotPositive(key))
      else None
    case Some(_) => Some(NotANumber(key))
  }

  /** number().integer().min(lo).max(hi), optional */
  function CheckIntegerBetween(key: string, v: Option<Json>, lo: nat, hi: nat): (r: Option<string>)
    ensures r.None? <==> v.None? || (v.value.JNum? && IsSafe(v.value.n) && IsInteger(v.value.n) && lo as real <= v.value.n <= hi as real)
    ensures v.Some? && !v.value.JNum? ==> r == Some(NotANumber(key))
  {
    match v
    case None => None
    case Some(JNum(n)) =>
      if !IsSafe(n) then Some(NotSafe(key))
      else if !IsInteger(n) then Some(NotInteger(key))
      else if n < lo as real then Some(BelowMin(key, lo))
      else if n > hi as real then Some(AboveMax(key, hi))
      else None
    case Some(_) => Some(NotANumber(key))
  }

  /** string().valid("single", "subscription"), optional: the allowed list
      is consulted before the type, so any other value fails on it. */
  function CheckPurchaseType(key: string, v: Option<Json>): (r: Option<string>)
    ensures r.None? <==> v.None? || v.value == JStr("single") || v.value == JStr("subscription")
    ensures r.Some? ==> r == Some(NotOneOf(key))
  {
    match v
    case None => None
    case Some(JStr(s)) => if s == "single" || s == "subscription" then None else Some(NotOneOf(key))
    case Some(_) => Some(NotOneOf(key))
  }

  /** object(), optional */
  function CheckObject(key: string, v: Option<Json>): (r: Option<string>)
    ensures r.None? <==> v.None? || v.value.JObj?
    ensures r.Some? ==> r == Some(NotAnObject(key))
  {
    match v
    case None => None
    case Some(JObj(_)) => None
    case Some(_) => Some(NotAnObject(key))
  }

  /** string().uri().required(); the address grammar is the parameter `isUri`. */
  function CheckUri(key: string, v: Option<Json>, isUri: string -> bool): (r: Option<string>)
    ensures r.None? <==> v.Some? && v.value.JStr? && v.value.s != "" && isUri(v.value.s)
    ensures v.None? ==> r == Some(IsRequired(key))
    ensures v.Some? && !v.value.JStr? ==> r == Some(NotAString(key))
  {
    match v
    case None => Some(IsRequired(key))
    case Some(JStr(s)) =>
      if s == "" then Some(EmptyString(key))
      else if !isUri(s) then Some(NotAUri(key))
      else None
    case Some(_) => Some(NotAString(key))
  }

  /** The first failure of a list of checks. */
  function FirstFailure(checks: seq<Option<string>>): (r: Option<string>)
    ensures r.None? <==> forall i :: 0 <= i < |checks| ==> checks[i].None?
    ensures r.Some? ==> exists i :: 0 <= i < |checks| && checks[i] == r && forall j :: 0 <= j < i ==> checks[j].None?
  {
    if checks == [] then None
    else if checks[0].Some? then checks[0]
    else
      var r := FirstFailure(checks[1..]);
      assert forall i :: 1 <= i < |checks| ==> checks[i] == checks[1..][i - 1];
      r
  }

  /** An object schema that allows no undeclared keys. */
  function CheckObjectSchema(body: Json, declared: set<string>, checks: seq<Option<string>>): (r: Option<string>)
    ensures r.None? <==> body.JObj? && (forall i :: 0 <= i < |checks| ==> checks[i].None?) && body.fields.Keys - declared == {}
    ensures !body.JObj? ==> r == Some(NotAnObject(ValueLabel))
    ensures body.JObj? && FirstFailure(checks).Some? ==> r == FirstFailure(checks)
    ensures body.JObj? && FirstFailure(checks).None? && body.fields.Keys - declared != {} ==>
      r == Some(NotAllowed(LeastKey(body.fields.Keys - declared)))
  {
    if !body.JObj? then Some(NotAnObject(ValueLabel))
    else if FirstFailure(checks).Some? then FirstFailure(checks)
    else if body.fields.Keys - declared != {} then Some(NotAllowed(LeastKey(body.fields.Keys - declared)))
    else None
  }

  // ---------------------------------------------------------------------
  // validatePackage

  const PackageKeys: set<string> := {"package_id", "quantity", "type", "variable_data"}

  function PackageChecks(fields: map<string, Json>): seq<Option<string>>
  {
    [ CheckPositiveInteger("package_id", Get(fields, "package_id")),
      CheckIntegerBetween("quantity", Get(fields, "quantity"), 1, 100),
      CheckPurchaseType("type", Get(fields, "type")),
      CheckObject("variable_data", Get(fields, "variable_data")) ]
  }

  function Get(fields: map<string, Json>, k: string): Option<Json>
  {
    if k in fields then Some(fields[k]) else None
  }

  /** The validated value: the body with the defaults of the absent keys. */
  function WithPackageDefaults(fields: map<string, Json>): map<string, Json>
  {
    var q := if "quantity" in fields then fields else fields["quantity" := JNum(1.0)];
    if "type" in q then q else q["type" := JStr("single")]
  }

  /** validatePackage: the first error message, or the value with its
      defaults filled in. */
  function ValidatePackage(body: Json): Result<map<string, Json>, string>
  {
    var fields := if body.JObj? then body.fields else map[];
    var failure := CheckObjectSchema(body, PackageKeys, PackageChecks(fields));
    if failure.Some? then Err(failure.value) else Ok(WithPackageDefaults(fields))
  }

  /** The package body is accepted exactly when it is an object whose
      package_id is a positive safe integer, whose quantity, when given,
      is a whole number from 1 to 100, whose type, when given, is "single"
      or "subscription", whose variable_data, when given, is an object, and
      which has no other keys. */
  predicate PackageAcceptable(body: Json)
  {
    body.JObj? &&
    var f := body.fields;
    "package_id" in f && f["package_id"].JNum? && IsSafe(f["package_id"].n) && IsInteger(f["package_id"].n) && f["package_id"].n > 0.0 &&
    ("quantity" in f ==> f["quantity"].JNum? && IsInteger(f["quantity"].n) && 1.0 <= f["quantity"].n <= 100.0) &&
    ("type" in f ==> f["type"] == JStr("single") || f["type"] == JStr("subscription")) &&
    ("variable_data" in f ==> f["variable_data"].JObj?) &&
    f.Keys <= PackageKeys
  }

  lemma ValidatePackageAccepts(body: Json)
    ensures ValidatePackage(body).Ok? <==> PackageAcceptable(body)
  {
    var fields := if body.JObj? then body.fields else map[];
    var checks := PackageChecks(fields);
    if PackageAcceptable(body) {
      assert forall i :: 0 <= i < |checks| ==> checks[i].None?;
    } else if body.JObj? {
      if FirstFailure(checks).None? {
        assert checks[0].None? && checks[1].None? && checks[2].None? && checks[3].None?;
        assert !(fields.Keys <= PackageKeys);
        assert fields.Keys - PackageKeys != {};
      }
    }
  }

  /** The accepted value keeps every given member and adds quantity 1 and
      type "single" when they are absent. */
  lemma ValidatePackageValue(body: Json)
    requires ValidatePackage(body).Ok?
    ensures var v := ValidatePackage(body).value;
      v.Keys == body.fields.Keys + {"quantity", "type"} &&
      (forall k :: k in body.fields ==> v[k] == body.fields[k]) &&
      ("quantity" !in body.fields ==> v["quantity"] == JNum(1.0)) &&
      ("type" !in body.fields ==> v["type"] == JStr("single"))
  {
  }

  /** Checks stop at the first failure, in declaration order: a missing or
      bad package_id is reported whatever else is wrong, and undeclared
      keys are reported only when every declared one is fine. */
  lemma ValidatePackageOrder(fields: map<string, Json>)
    ensures "package_id" !in fields ==> ValidatePackage(JObj(fields)) == Err(IsRequired("package_id"))
    ensures PackageChecks(fields)[0].Some? ==> ValidatePackage(JObj(fields)) == Err(PackageChecks(fields)[0].value)
    ensures FirstFailure(PackageChecks(fields)).None? && fields.Keys - PackageKeys != {} ==>
      ValidatePackage(JObj(fields)) == Err(NotAllowed(LeastKey(fields.Keys - PackageKeys)))
  {
  }

  lemma ValidatePackageDefaultsExample()
    ensures ValidatePackage(JObj(map["package_id" := JNum(7.0)])) ==
      Ok(map["package_id" := JNum(7.0), "quantity" := JNum(1.0), "type" := JStr("single")])
  {
    var f := map["package_id" := JNum(7.0)];
    assert "quantity" !in f && "type" !in f;
    assert f.Keys - PackageKeys == {};
  }

  lemma ValidatePackageAboveMaxExample()
    ensures ValidatePackage(JObj(map["package_id" := JNum(7.0), "quantity" := JNum(101.0)])) ==
      Err(AboveMax("quantity", 100))
  {
    var g := map["package_id" := JNum(7.0), "quantity" := JNum(101.0)];
    assert FirstFailure(PackageChecks(g)) == Some(AboveMax("quantity", 100));
  }

  lemma ValidatePackageFractionExample()
    ensures ValidatePackage(JObj(map["package_id" := JNum(1.5), "quantity" := JNum(0.0)])) ==
      Err(NotInteger("package_id"))
  {
    assert (1.5).Floor == 1;
  }

  lemma ValidatePackageNotObjectExample()
    ensures ValidatePackage(JArr([])) == Err(NotAnObject(ValueLabel))
  {
  }

  // ---------------------------------------------------------------------
  // validateBasket and validateReturnUrl

  const BasketKeys: set<string> := {"complete_url", "cancel_url", "custom"}

  function BasketChecks(fields: map<string, Json>, isUri: string -> bool): seq<Option<string>>
  {
    [ CheckUri("complete_url", Get(fields, "complete_url"), isUri),
      CheckUri("cancel_url", Get(fields, "cancel_url"), isUri),
      CheckObject("custom", Get(fields, "custom")) ]
  }

  /** validateBasket; the top-level object itself is optional. */
  function ValidateBasket(body: Option<Json>, isUri: string -> bool): Option<string>
  {
    match body
    case None => None
    case Some(b) =>
      var fields := if b.JObj? then b.fields else map[];
      CheckObjectSchema(b, BasketKeys, BasketChecks(fields, isUri))
  }

  /** A basket body passes exactly when both addresses are non-empty URIs,
      custom is an object when given, and nothing else is present. */
  lemma ValidateBasketAccepts(fields: map<string, Json>, isUri: string -> bool)
    ensures ValidateBasket(Some(JObj(fields)), isUri).None? <==>
      "complete_url" in fields && fields["complete_url"].JStr? && fields["complete_url"].s != "" && isUri(fields["complete_url"].s) &&
      "cancel_url" in fields && fields["cancel_url"].JStr? && fields["cancel_url"].s != "" && isUri(fields["cancel_url"].s) &&
      ("custom" in fields ==> fields["custom"].JObj?) &&
      fields.Keys <= BasketKeys
  {
    var checks := BasketChecks(fields, isUri);
    if FirstFailure(checks).None? {
      assert checks[0].None? && checks[1].None? && checks[2].None?;
      if !(fields.Keys <= BasketKeys) {
        assert fields.Keys - BasketKeys != {};
      }
    }
  }

  /** validateReturnUrl */
  function ValidateReturnUrl(url: Option<Json>, isUri: string -> bool): (r: Option<string>)
    ensures r.None? <==> url.Some? && url.value.JStr? && url.value.s != "" && isUri(url.value.s)
  {
    CheckUri(ValueLabel, url, isUri)
  }

  // ---------------------------------------------------------------------
  // validateProductName and validateBasketIdent

  /** string().min(1).max(500).required() */
  function ValidateProductName(name: Option<Json>): (r: Option<string>)
    ensures r.None? <==> name.Some? && name.value.JStr? && 1 <= |name.value.s| <= 500
  {
    match name
    case None => Some(IsRequired(ValueLabel))
    case Some(JStr(s)) =>
      if s == "" then Some(EmptyString(ValueLabel))
      else if |s| > 500 then Some(Quoted(ValueLabel) + " length must be less than or equal to 500 characters long")
      else None
    case Some(_) => Some(NotAString(ValueLabel))
  }

  /** The characters the basket-identifier pattern admits. */
  predicate IdentChar(c: char)
  {
    'a' <= c <= 'z' || 'A' <= c <= 'Z' || '0' <= c <= '9' || c == '-'
  }

  /** Whole-string match of a non-empty run of IdentChar. */
  function MatchesIdentPattern(s: string): (b: bool)
    ensures b <==> |s| > 0 && forall i :: 0 <= i < |s| ==> IdentChar(s[i])
    decreases |s|
  {
    if s == [] then false
    else if !IdentChar(s[0]) then false
    else if |s| == 1 then true
    else
      var rest := MatchesIdentPattern(s[1..]);
      assert forall i :: 1 <= i < |s| ==> s[i] == s[1..][i - 1];
      rest
  }

  datatype IdentIssue = EmptyIdent | BadCharacters | TooShort | TooLong

  /** validateBasketIdent on the path segment (always a string): emptiness,
      then the pattern, then the minimum length 10, then the maximum 100. */
  function BasketIdentIssue(ident: string): Option<IdentIssue>
  {
    if ident == "" then Some(EmptyIdent)
    else if !MatchesIdentPattern(ident) then Some(BadCharacters)
    else if |ident| < 10 then Some(TooShort)
    else if |ident| > 100 then Some(TooLong)
    else None
  }

  /** An identifier passes exactly when it has 10 to 100 characters, each an
      ASCII letter, a digit or a hyphen. */
  lemma BasketIdentAccepts(ident: string)
    ensures BasketIdentIssue(ident).None? <==>
      10 <= |ident| <= 100 && forall i :: 0 <= i < |ident| ==> IdentChar(ident[i])
  {
  }

  predicate ValidBasketIdent(ident: string)
  {
    BasketIdentIssue(ident).None?
  }
}

/** Value parsers and validators used by the configuration options: a
    case-insensitive boolean parser, a `typeof` check, positive and
    non-negative integer validators (the retry budget is a non-negative
    integer option) and the "optional function / plain object" predicates. */
module ConfigUtil {

  /** A JavaScript number, as far as `Number.isInteger` can tell: an integer
      value, or anything else (a fraction, NaN or an infinity). */
  datatype JsNumber = Int(i: int) | NonInteger

  /** The JavaScript values a configuration option can hold. `Object` covers
      arrays, class instances and plain objects; `isPlain` is what
      `_.isPlainObject` decides. */
  datatype JsValue =
    | Undefined
    | Null
    | Boolean(b: bool)
    | Number(n: JsNumber)
    | Str(s: string)
    | Function
    | Object(isPlain: bool)
    | Symbol

  /** A validator either accepts or throws an error with a message. */
  datatype Outcome = Pass | Fail(message: string)

  datatype Result<+T> = Ok(value: T) | Err(message: string)

  /** Default of the `retry` option: no retries. */
  const DefaultRetry: int := 0

  /** JavaScript's `typeof` (note that `typeof null` is "object"). */
  function TypeOf(v: JsValue): string {
    match v
    case Undefined => "undefined"
    case Null => "object"
    case Boolean(_) => "boolean"
    case Number(_) => "number"
    case Str(_) => "string"
    case Function => "function"
    case Object(_) => "object"
    case Symbol => "symbol"
  }

  /** `is(type)`: a validator that throws unless `typeof value === type`. */
  function Is(typeName: string): JsValue -> Outcome {
    v => if TypeOf(v) != typeName then Fail("value must be a " + typeName) else Pass
  }

  /** `is(type)(v)` throws iff `typeof v !== type`, and the message names the type. */
  lemma IsRejectsExactlyOtherTypes(typeName: string, v: JsValue)
    ensures Is(typeName)(v).Fail? <==> TypeOf(v) != typeName
    ensures Is(typeName)(v).Fail? ==> Is(typeName)(v).message == "value must be a " + typeName
  {
  }

  /** The boolean options' validator `is('boolean')` accepts exactly booleans. */
  lemma IsBooleanAcceptsOnlyBooleans(v: JsValue)
    ensures Is("boolean")(v) == Pass <==> v.Boolean?
  {
  }

  /** `is('object')` accepts null, as `typeof null` is "object". */
  lemma IsObjectAcceptsNull()
    ensures Is("object")(Null) == Pass
  {
  }

  // ---------------------------------------------------------------------------
  // parseBoolean

  /** `toLowerCase` on one character (letters A-Z; other characters are kept). */
  function LowerChar(c: char): char {
    if 'A' <= c <= 'Z' then (c as int + 32) as char else c
  }

  function ToLower(s: string): string {
    seq(|s|, i requires 0 <= i < |s| => LowerChar(s[i]))
  }

  /** Reference definition of "s equals w in any letter case". */
  predicate EqualsIgnoringCase(s: string, w: string) {
    |s| == |w| && forall i :: 0 <= i < |s| ==> LowerChar(s[i]) == LowerChar(w[i])
  }

  predicate IsTrueWord(s: string) {
    EqualsIgnoringCase(s, "1") || EqualsIgnoringCase(s, "yes") || EqualsIgnoringCase(s, "true")
  }

  predicate IsFalseWord(s: string) {
    EqualsIgnoringCase(s, "0") || EqualsIgnoringCase(s, "no") || EqualsIgnoringCase(s, "false")
  }

  /** `parseBoolean`: a switch over the lower-cased value. */
  function ParseBoolean(value: string): Result<bool> {
    var lower := ToLower(value);
    if lower == "1" || lower == "yes" || lower == "true" then Ok(true)
    else if lower == "0" || lower == "no" || lower == "false" then Ok(false)
    else Err("Unexpected value for boolean option " + value)
  }

  /** Lower-casing `s` yields the lower-case word `w` iff `s` is `w` in some letter case. */
  lemma ToLowerIsWord(s: string, w: string)
    requires ToLower(w) == w
    ensures ToLower(s) == w <==> EqualsIgnoringCase(s, w)
  {
  }

  /** The true-set, the false-set and the error case of `parseBoolean`, stated
      over "equal ignoring letter case": the two sets are disjoint, and every
      other string is rejected with a message naming it. */
  lemma ParseBooleanCases(s: string)
    ensures ParseBoolean(s) == Ok(true) <==> IsTrueWord(s)
    ensures ParseBoolean(s) == Ok(false) <==> IsFalseWord(s)
    ensures !(IsTrueWord(s) && IsFalseWord(s))
    ensures ParseBoolean(s).Err? <==> !IsTrueWord(s) && !IsFalseWord(s)
    ensures ParseBoolean(s).Err? ==> ParseBoolean(s).message == "Unexpected value for boolean option " + s
  {
    ToLowerIsWord(s, "1");
    ToLowerIsWord(s, "yes");
    ToLowerIsWord(s, "true");
    ToLowerIsWord(s, "0");
    ToLowerIsWord(s, "no");
    ToLowerIsWord(s, "false");
  }

  /** Changing the letter case of an accepted value does not change the parsed boolean. */
  lemma ParseBooleanIgnoresCase(s: string, t: string)
    requires EqualsIgnoringCase(s, t)
    requires ParseBoolean(s).Ok?
    ensures ParseBoolean(t) == ParseBoolean(s)
  {
  }

  /** The string form of a boolean. */
  function BoolToString(b: bool): string {
    if b then "true" else "false"
  }

  /** Round trip: parsing the string form of `b` gives back `b`. */
  lemma ParseBooleanRoundTrip(b: bool)
    ensures ParseBoolean(BoolToString(b)) == Ok(b)
  {
  }

  // ---------------------------------------------------------------------------
  // Integer validators

  /** `Number.isInteger(value)`. */
  predicate IsInteger(v: JsValue) {
    v.Number? && v.n.Int?
  }

  /** The `validate` of `positiveIntegerOption`. */
  function ValidatePositiveInteger(v: JsValue): Outcome {
    if !IsInteger(v) then Fail("Field must be an integer number")
    else if v.n.i <= 0 then Fail("Field must be positive")
    else Pass
  }

  /** The `validate` of `nonNegativeIntegerOption`. */
  function ValidateNonNegativeInteger(v: JsValue): Outcome {
    if !IsInteger(v) then Fail("Field must be an integer number")
    else if v.n.i < 0 then Fail("Field must be non-negative")
    else Pass
  }

  /** The positive validator accepts exactly the integers above zero; a
      non-integer is rejected with the "integer" message before any sign check. */
  lemma PositiveIntegerAccepts(v: JsValue)
    ensures ValidatePositiveInteger(v) == Pass <==> exists k: int :: k > 0 && v == Number(Int(k))
    ensures !IsInteger(v) ==> ValidatePositiveInteger(v) == Fail("Field must be an integer number")
  {
  }

  /** The non-negative validator accepts exactly the integers from zero up;
      a non-integer is rejected with the "integer" message before any sign check. */
  lemma NonNegativeIntegerAccepts(v: JsValue)
    ensures ValidateNonNegativeInteger(v) == Pass <==> exists k: nat :: v == Number(Int(k))
    ensures !IsInteger(v) ==> ValidateNonNegativeInteger(v) == Fail("Field must be an integer number")
  {
  }

  /** The two validators differ on exactly one value: zero. */
  lemma PositiveVersusNonNegative(v: JsValue)
    ensures ValidatePositiveInteger(v) == Pass ==> ValidateNonNegativeInteger(v) == Pass
    ensures ValidateNonNegativeInteger(v) == Pass && ValidatePositiveInteger(v) != Pass
            <==> v == Number(Int(0))
  {
  }

  /** The default retry budget is a valid non-negative integer but not a positive one. */
  lemma DefaultRetryValidation()
    ensures ValidateNonNegativeInteger(Number(Int(DefaultRetry))) == Pass
    ensures ValidatePositiveInteger(Number(Int(DefaultRetry))) == Fail("Field must be positive")
  {
  }

  // ---------------------------------------------------------------------------
  // Optional function / object predicates

  /** `isOptionalFunction`: null or a function. */
  predicate IsOptionalFunction(v: JsValue) {
    v.Null? || v.Function?
  }

  /** `isOptionalObject`: null or a plain object. */
  predicate IsOptionalObject(v: JsValue) {
    v.Null? || (v.Object? && v.isPlain)
  }

  /** Both accept null; neither accepts undefined (`_.isNull(undefined)` is false). */
  lemma OptionalPredicatesOnNull()
    ensures IsOptionalFunction(Null) && IsOptionalObject(Null)
    ensures !IsOptionalFunction(Undefined) && !IsOptionalObject(Undefined)
  {
  }
}

/**
 * Testing and comparison operations (`src/core/test.rs`): type tags, the
 * SameValue family, strict equality and the small predicates on values
 * (ECMA-262 sections 7.2.1, 7.2.7, 7.2.10 to 7.2.12 and 7.2.15).
 */
module Testing {
  import opened Wrappers
  import opened Errors
  import Numbers
  import opened Values

  /** The language type of a value. */
  datatype Type =
    | BigIntType
    | BooleanType
    | NumberType
    | NullType
    | ObjectType
    | StringType
    | SymbolType
    | UndefinedType

  /** `e262_type` */
  function TypeOf(value: Value): (t: Type)
  {
    match value
    case BigInt(_) => BigIntType
    case Boolean(_) => BooleanType
    case Number(_) => NumberType
    case Null => NullType
    case Object(_) => ObjectType
    case String(_) => StringType
    case Symbol(_) => SymbolType
    case Undefined => UndefinedType
  }

  /** Two values share a tag exactly when they are the same variant: every variant has its own tag. */
  lemma TypeTagsSeparateVariants(x: Value, y: Value)
    ensures TypeOf(x) == TypeOf(y) <==>
      && x.Null? == y.Null? && x.Undefined? == y.Undefined?
      && x.Boolean? == y.Boolean? && x.Number? == y.Number?
      && x.BigInt? == y.BigInt? && x.Symbol? == y.Symbol?
      && x.String? == y.String? && x.Object? == y.Object?
  {
  }

  /** `e262_is_integral_number`: a finite Number equal to its floor. */
  function IsIntegralNumber(argument: Value): (r: bool)
    ensures r ==> argument.Number? && Numbers.IsFinite(argument.n)
    ensures argument.Number? && argument.n.Zero? ==> r
    ensures argument.Number? && argument.n.Finite? ==> (r <==> argument.n.v == argument.n.v.Floor as real)
  {
    if argument.Number? then
      var value := argument.n;
      Numbers.IsFinite(value) && (value.Zero? || (value.Finite? && value.v.Floor as real == value.v))
    else
      false
  }

  /**
   * `e262_same_value_non_number`: the caller guarantees both values have one
   * tag and that it is not Number (any other pair is unreachable). On such
   * pairs it is structural equality: strings by text, symbols by identity
   * and description, objects by identity.
   */
  function SameValueNonNumber(x: Value, y: Value): (r: bool)
    requires TypeOf(x) == TypeOf(y) && !x.Number?
    ensures r <==> x == y
  {
    match (x, y)
    case (Null, Null) => true
    case (Undefined, Undefined) => true
    case (BigInt(a), BigInt(b)) => a == b
    case (Boolean(a), Boolean(b)) => a == b
    case (String(a), String(b)) => a == b
    case (Symbol(a), Symbol(b)) => a == b
    case (Object(a), Object(b)) => a.id == b.id
    case _ => assert false; false
  }

  /** `e262_is_strictly_equal`: `===`, with NaN unequal to itself and the zeros equal. */
  function IsStrictlyEqual(x: Value, y: Value): (r: bool)
    ensures TypeOf(x) != TypeOf(y) ==> !r
    ensures r <==> if x.Number? && y.Number? then Numbers.FloatEq(x.n, y.n) else x == y
  {
    if TypeOf(x) != TypeOf(y) then
      false
    else if x.Number? && y.Number? then
      Numbers.Equal(x.n, y.n)
    else
      SameValueNonNumber(x, y)
  }

  /** `e262_same_value`: identity of values, NaN included, the zeros told apart. */
  function SameValue(x: Value, y: Value): (r: bool)
    ensures TypeOf(x) != TypeOf(y) ==> !r
    ensures r <==> x == y
  {
    if TypeOf(x) != TypeOf(y) then
      false
    else if x.Number? && y.Number? then
      Numbers.SameValue(x.n, y.n)
    else
      SameValueNonNumber(x, y)
  }

  /** `e262_same_value_zero`: as SameValue, but the two zeros are one. */
  function SameValueZero(x: Value, y: Value): (r: bool)
    ensures TypeOf(x) != TypeOf(y) ==> !r
    ensures r <==> x == y || (x.Number? && y.Number? && x.n.Zero? && y.n.Zero?)
  {
    if TypeOf(x) != TypeOf(y) then
      false
    else if x.Number? && y.Number? then
      Numbers.SameValueZero(x.n, y.n)
    else
      SameValueNonNumber(x, y)
  }

  /** On one tag, the three equalities defer to the Number comparisons or to SameValueNonNumber. */
  lemma EqualitiesDelegate(x: Value, y: Value)
    requires TypeOf(x) == TypeOf(y)
    ensures x.Number? ==> IsStrictlyEqual(x, y) == Numbers.Equal(x.n, y.n)
    ensures x.Number? ==> SameValue(x, y) == Numbers.SameValue(x.n, y.n)
    ensures x.Number? ==> SameValueZero(x, y) == Numbers.SameValueZero(x.n, y.n)
    ensures !x.Number? ==> IsStrictlyEqual(x, y) == SameValueNonNumber(x, y)
    ensures !x.Number? ==> SameValue(x, y) == SameValueNonNumber(x, y)
    ensures !x.Number? ==> SameValueZero(x, y) == SameValueNonNumber(x, y)
  {
  }

  /** SameValue and SameValueZero are reflexive and symmetric; strict equality only symmetric. */
  lemma EqualitiesReflexiveSymmetric(x: Value, y: Value)
    ensures SameValue(x, x) && SameValueZero(x, x)
    ensures SameValue(x, y) == SameValue(y, x)
    ensures SameValueZero(x, y) == SameValueZero(y, x)
    ensures IsStrictlyEqual(x, y) == IsStrictlyEqual(y, x)
    ensures !IsStrictlyEqual(Number(Numbers.NaN), Number(Numbers.NaN))
  {
  }

  /** The three equalities on the NaN and signed-zero values. */
  lemma EqualitiesOnNaNAndZeros()
    ensures SameValue(Number(Numbers.NaN), Number(Numbers.NaN))
    ensures !SameValue(Number(Numbers.Zero(false)), Number(Numbers.Zero(true)))
    ensures IsStrictlyEqual(Number(Numbers.Zero(false)), Number(Numbers.Zero(true)))
    ensures SameValueZero(Number(Numbers.Zero(false)), Number(Numbers.Zero(true)))
    ensures SameValueZero(Number(Numbers.NaN), Number(Numbers.NaN))
  {
  }

  /** `e262_is_property_key`: only Strings and Symbols are property keys. */
  function IsPropertyKey(argument: Value): (r: bool)
    ensures r <==> TypeOf(argument) == StringType || TypeOf(argument) == SymbolType
  {
    argument.String? || argument.Symbol?
  }

  const NullNotCoercible: string := "Null value cannot be converted to object"
  const UndefinedNotCoercible: string := "Undefined value cannot be converted to object"

  /** `e262_require_object_coercible`: a TypeError for Null and Undefined, the argument itself otherwise. */
  function RequireObjectCoercible(argument: Value): (r: CoreResult<Value>)
    ensures r.Err? <==> argument.Null? || argument.Undefined?
    ensures r.Err? ==> r.error.TypeError?
    ensures r.Ok? ==> r.value == argument
  {
    match argument
    case Null => Err(TypeError(NullNotCoercible))
    case Undefined => Err(TypeError(UndefinedNotCoercible))
    case _ => Ok(argument)
  }
}

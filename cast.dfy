/** Type conversion (`src/core/cast.rs`): ToBoolean, ECMA-262 section 7.1.2. */
module Cast {
  import Numbers
  import opened Values

  /** The three-way result a ToIntegerOrInfinity would produce; only the type exists in the source. */
  datatype IntegerOrInfinity = NegativeInfinity | Integer(value: Numbers.F64) | PositiveInfinity

  /**
   * `e262_to_boolean`. `annexB` stands for the build's `annex-b` feature:
   * with it on, every object is falsy, not only those carrying [[IsHTMLDDA]].
   */
  function ToBoolean(argument: Value, annexB: bool): (r: bool)
    ensures argument.Boolean? ==> r == argument.b
    ensures argument.Null? || argument.Undefined? ==> !r
    ensures argument.Number? ==> (!r <==> argument.n.Zero? || argument.n.NaN?)
    ensures argument.BigInt? ==> (!r <==> argument.i == 0)
    ensures argument.String? ==> (!r <==> |argument.s| == 0)
    ensures argument.Symbol? ==> r
    ensures argument.Object? ==> (r <==> !annexB)
  {
    match argument
    case Boolean(value) => value
    case Null => false
    case Undefined => false
    case Number(value) => !Numbers.IsZero(value) && !Numbers.IsNaN(value)
    case BigInt(value) => value != 0
    case String(value) => |value| > 0
    case Symbol(_) => true
    case Object(_) => !annexB
  }

  /** The falsy values, listed: eight primitives, and every object when `annex-b` is on. */
  lemma FalsyValues(argument: Value, annexB: bool)
    ensures !ToBoolean(argument, annexB) <==>
      || argument in {Null, Undefined, Boolean(false), BigInt(0), String("")}
      || argument in {Number(Numbers.Zero(false)), Number(Numbers.Zero(true)), Number(Numbers.NaN)}
      || (annexB && argument.Object?)
  {
  }
}

/** The language values (`src/core/value.rs`) and their constructors. */
module Values {
  import opened Wrappers
  import opened Ids
  import opened Numbers
  import opened Symbols

  /**
   * Text of a String value. The source's copy-on-write string compares by
   * text whether borrowed or owned, so the text is all that is kept.
   */
  type StringRep = string

  /**
   * A shared handle to an object. Its equality compares identities only, so
   * the handle is represented by its identity.
   */
  datatype ObjectRep = ObjectRep(id: MagicId)

  /** Exactly one of the eight variants; `==` on it is the derived structural equality. */
  datatype Value =
    | Null
    | Undefined
    | Boolean(b: bool)
    | Number(n: F64)
    | BigInt(i: int)
    | Symbol(sym: SymbolRep)
    | String(s: StringRep)
    | Object(obj: ObjectRep)

  /** `p262_boolean` */
  function BooleanValue(value: bool): (r: Value)
    ensures r.Boolean? && r.b == value
  {
    Boolean(value)
  }

  /** `p262_number` */
  function NumberValue(value: F64): (r: Value)
    ensures r.Number? && r.n == value
  {
    Number(value)
  }

  /** `p262_null` */
  function NullValue(): (r: Value)
    ensures r.Null?
  {
    Null
  }

  /** `p262_undefined` */
  function UndefinedValue(): (r: Value)
    ensures r.Undefined?
  {
    Undefined
  }

  /**
   * `p262_str` and `p262_string`: a String value from a borrowed or an owned string.
   * Borrowing and ownership do not exist in the model, so both are this one function.
   */
  function StrValue(value: StringRep): (r: Value)
    ensures r.String? && r.s == value
  {
    String(value)
  }

  /** `p262_symbol`: a Symbol value with the given description and a fresh identity. */
  method SymbolValue(ids: IdSource, description: Option<string>) returns (r: Value)
    modifies ids
    ensures r.Symbol? && r.sym.description == description
    ensures r.sym.id == old(ids.next) && ids.next == old(ids.next) + 1
  {
    var s := Symbols.New(ids, description);
    r := Symbol(s);
  }

  /** What `p262_bigint` accepts: anything convertible to a BigInt, an integer or a double. */
  datatype BigIntSource = IntegerSource(i: int) | FloatSource(f: F64)

  /** Truncation toward zero, as the conversion from a double does. */
  function Truncate(v: real): (r: int)
    ensures v >= 0.0 ==> 0 <= r && r as real <= v < r as real + 1.0
    ensures v < 0.0 ==> r <= 0 && r as real - 1.0 < v <= r as real
  {
    if v >= 0.0 then v.Floor else -((-v).Floor)
  }

  /**
   * `p262_bigint`: None exactly when the source is a NaN or an infinity;
   * otherwise a BigInt holding the integer (a double is truncated toward zero).
   */
  function BigIntValue(source: BigIntSource): (r: Option<Value>)
    ensures r.None? <==> source.FloatSource? && (source.f.NaN? || source.f.Infinity?)
    ensures r.Some? ==> r.value.BigInt?
    ensures source.IntegerSource? ==> r == Some(BigInt(source.i))
    ensures source.FloatSource? && source.f.Zero? ==> r == Some(BigInt(0))
    ensures source.FloatSource? && source.f.Finite? && source.f.v == source.f.v.Floor as real ==>
              r == Some(BigInt(source.f.v.Floor))
  {
    match source
    case IntegerSource(i) => Some(BigInt(i))
    case FloatSource(f) =>
      match f
      case NaN => None
      case Infinity(_) => None
      case Zero(_) => Some(BigInt(0))
      case Finite(v) => Some(BigInt(Truncate(v)))
  }

  /** Structural equality tells the constructors' results apart as the source's tests expect. */
  lemma ConstructorsAndStructuralEquality(a: string, b: string)
    ensures NullValue() != UndefinedValue()
    ensures BooleanValue(true) != BooleanValue(false)
    ensures NullValue() == NullValue() && UndefinedValue() == UndefinedValue()
    ensures StrValue(a) == StrValue(b) <==> a == b
    ensures BigIntValue(IntegerSource(1001)) == Some(BigInt(1001))
    ensures BigIntValue(FloatSource(Infinity(false))) == None && BigIntValue(FloatSource(NaN)) == None
  {
  }
}

/**
 * Properties and property descriptors (`src/core/property.rs`,
 * ECMA-262 sections 6.2.6.1 to 6.2.6.6). A Property is the complete stored
 * form; a Descriptor is a patch whose every field may be absent. The Rust
 * fields `get` and `set` are called `getter` and `setter` here.
 */
module Properties {
  import opened Wrappers
  import opened Values

  datatype Property =
    | Data(value: Value, writable: bool, enumerable: bool, configurable: bool)
    | Accessor(getter: Option<Value>, setter: Option<Value>, enumerable: bool, configurable: bool)
  {
    predicate IsAccessor() {
      Accessor?
    }

    predicate IsData() {
      Data?
    }

    function IsEnumerable(): bool {
      match this
      case Accessor(_, _, enumerable, _) => enumerable
      case Data(_, _, enumerable, _) => enumerable
    }

    function IsConfigurable(): bool {
      match this
      case Accessor(_, _, _, configurable) => configurable
      case Data(_, _, _, configurable) => configurable
    }
  }

  /** A stored property is exactly one of the two shapes, and its flags are that variant's. */
  lemma PropertyClassifiers(p: Property)
    ensures p.IsAccessor() != p.IsData()
    ensures p.IsEnumerable() == p.enumerable && p.IsConfigurable() == p.configurable
  {
  }

  datatype Descriptor = Descriptor(
    value: Option<Value>,
    writable: Option<bool>,
    getter: Option<Value>,
    setter: Option<Value>,
    enumerable: Option<bool>,
    configurable: Option<bool>)
  {
    predicate IsAccessor() {
      getter.Some? || setter.Some?
    }

    predicate IsData() {
      value.Some? || writable.Some?
    }

    predicate IsEmpty() {
      value.None? && writable.None? && getter.None? && setter.None? && enumerable.None? && configurable.None?
    }

    predicate IsGeneric() {
      !IsAccessor() && !IsData()
    }
  }

  /** The derived `Default` descriptor: every field absent. */
  const EmptyDescriptor: Descriptor := Descriptor(None, None, None, None, None, None)

  /**
   * The descriptor classifiers: an empty descriptor is generic, the default
   * descriptor is the only empty one, and a descriptor can be data- and
   * accessor-shaped at once.
   */
  lemma DescriptorClassifiers(d: Descriptor)
    ensures d.IsEmpty() ==> d.IsGeneric()
    ensures d.IsEmpty() <==> d == EmptyDescriptor
    ensures d.IsGeneric() <==> d.value.None? && d.writable.None? && d.getter.None? && d.setter.None?
    ensures d.IsGeneric() && !d.IsEmpty() ==> d.enumerable.Some? || d.configurable.Some?
    ensures Descriptor(Some(Undefined), None, Some(Undefined), None, None, None).IsData()
    ensures Descriptor(Some(Undefined), None, Some(Undefined), None, None, None).IsAccessor()
  {
  }

  /** `e262_is_accessor_descriptor`: false for an absent descriptor. */
  function IsAccessorDescriptor(desc: Option<Descriptor>): (r: bool)
    ensures r <==> desc.Some? && (desc.value.getter.Some? || desc.value.setter.Some?)
  {
    match desc
    case None => false
    case Some(d) => d.IsAccessor()
  }

  /** `e262_is_data_descriptor`: false for an absent descriptor. */
  function IsDataDescriptor(desc: Option<Descriptor>): (r: bool)
    ensures r <==> desc.Some? && (desc.value.value.Some? || desc.value.writable.Some?)
  {
    match desc
    case None => false
    case Some(d) => d.IsData()
  }

  /** `e262_is_generic_descriptor`: false for an absent descriptor. */
  function IsGenericDescriptor(desc: Option<Descriptor>): (r: bool)
    ensures r <==> desc.Some? && !IsAccessorDescriptor(desc) && !IsDataDescriptor(desc)
  {
    match desc
    case None => false
    case Some(d) => d.IsGeneric()
  }

  /**
   * `e262_complete_property_descriptor` (`From<Descriptor> for Property`).
   * An accessor-shaped descriptor becomes an Accessor, even if it is also
   * data-shaped; anything else becomes a Data property. As written, a Data
   * property takes its `configurable` from the descriptor's `enumerable`.
   */
  function CompletePropertyDescriptor(desc: Descriptor): (p: Property)
    ensures p.IsAccessor() <==> IsAccessorDescriptor(Some(desc))
    ensures p.Accessor? ==> p.getter == desc.getter && p.setter == desc.setter
    ensures p.enumerable == desc.enumerable.GetOr(false)
    ensures p.Accessor? ==> p.configurable == desc.configurable.GetOr(false)
    ensures p.Data? ==> p.value == desc.value.GetOr(Undefined) && p.writable == desc.writable.GetOr(false)
    ensures p.Data? ==> p.configurable == p.enumerable
  {
    if IsAccessorDescriptor(Some(desc)) then
      Accessor(desc.getter, desc.setter, desc.enumerable.GetOr(false), desc.configurable.GetOr(false))
    else
      Data(desc.value.GetOr(Undefined), desc.writable.GetOr(false), desc.enumerable.GetOr(false), desc.enumerable.GetOr(false))
  }

  /**
   * The `configurable` default of a completed Data property diverges from
   * ECMA-262 section 6.2.6.6: it follows `enumerable`, not `configurable`.
   */
  lemma CompleteConfigurableFollowsEnumerable()
    ensures !CompletePropertyDescriptor(Descriptor(Some(Null), None, None, None, None, Some(true))).IsConfigurable()
    ensures CompletePropertyDescriptor(Descriptor(Some(Null), None, None, None, Some(true), None)).IsConfigurable()
  {
  }

  /**
   * `From<Property> for Descriptor`: every field the property's shape has is
   * present, the other shape's fields are absent (an accessor's own getter
   * and setter are copied as they are, possibly absent).
   */
  function ToDescriptor(p: Property): (d: Descriptor)
    ensures d.enumerable == Some(p.enumerable) && d.configurable == Some(p.configurable)
    ensures !d.IsEmpty()
    ensures p.Data? ==> d.value == Some(p.value) && d.writable == Some(p.writable) && !d.IsAccessor()
    ensures p.Accessor? ==> d.getter == p.getter && d.setter == p.setter && !d.IsData()
  {
    match p
    case Accessor(getter, setter, enumerable, configurable) =>
      Descriptor(None, None, getter, setter, Some(enumerable), Some(configurable))
    case Data(value, writable, enumerable, configurable) =>
      Descriptor(Some(value), Some(writable), None, None, Some(enumerable), Some(configurable))
  }

  /**
   * Completing the descriptor of a property gives the property back exactly
   * for accessors with a getter or a setter, and for data properties whose
   * `enumerable` and `configurable` agree.
   */
  lemma CompleteToDescriptorRoundTrip(p: Property)
    ensures CompletePropertyDescriptor(ToDescriptor(p)) == p <==>
              (p.Accessor? && (p.getter.Some? || p.setter.Some?)) || (p.Data? && p.enumerable == p.configurable)
  {
    var q := CompletePropertyDescriptor(ToDescriptor(p));
    if p.Data? && p.enumerable != p.configurable {
      assert q.configurable != p.configurable;
    }
    if p.Accessor? && p.getter.None? && p.setter.None? {
      assert q.Data?;
    }
  }

  /** An accessor with neither getter nor setter comes back as an undefined, read-only Data property. */
  lemma BareAccessorCompletesToData(enumerable: bool, configurable: bool)
    ensures CompletePropertyDescriptor(ToDescriptor(Accessor(None, None, enumerable, configurable)))
            == Data(Undefined, false, enumerable, enumerable)
  {
  }
}

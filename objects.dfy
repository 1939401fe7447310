/**
 * Ordinary objects (`src/core/objects.rs`): the own-property store of a
 * BaseObject and the ordinary internal methods over it (ECMA-262
 * sections 10.1.1.1, 10.1.3.1, 10.1.4.1, 10.1.5.1, 10.1.10.1), and
 * ValidateAndApplyPropertyDescriptor with its validation-only wrapper
 * IsCompatiblePropertyDescriptor (sections 10.1.6.2 and 10.1.6.3), as the
 * source writes them, including where they depart from the standard.
 */
module Objects {
  import opened Wrappers
  import opened Symbols
  import opened Values
  import opened Properties
  import Numbers
  import Testing
  import OrderedMaps

  /** A property key: a string or a symbol. */
  datatype PropertyKey = StringKey(text: string) | SymbolKey(sym: SymbolRep)

  /** The internal-slot values this model knows of (the source stores any type and downcasts). */
  datatype SlotValue = BoolSlot(flag: bool) | ValueSlot(v: Value)

  /** An ordinary object's storage. */
  class BaseObject {
    var props: seq<(PropertyKey, Property)>
    var slots: map<string, SlotValue>
    var prototype: Option<ObjectRep>
    var extensible: bool

    /** Each key has at most one own property. */
    ghost predicate Valid()
      reads this
    {
      OrderedMaps.DistinctKeys(props)
    }

    /** A fresh ordinary object with no own properties; it starts extensible. */
    constructor (proto: Option<ObjectRep>, initialSlots: map<string, SlotValue>)
      ensures Valid()
      ensures props == [] && slots == initialSlots && prototype == proto && extensible
    {
      props := [];
      slots := initialSlots;
      prototype := proto;
      extensible := true;
    }

    /** OrdinaryGetOwnProperty: a direct look-up among the own properties, no prototype walk. */
    function GetOwnProperty(key: PropertyKey): (r: Option<Property>)
      reads this
      ensures r.Some? <==> key in OrderedMaps.Keys(props)
      ensures r.Some? ==> (key, r.value) in props
    {
      OrderedMaps.Get(props, key)
    }

    /** OrdinaryGetPrototypeOf: the stored [[Prototype]] link. */
    function GetPrototypeOf(): (r: Option<ObjectRep>)
      reads this
      ensures r == prototype
    {
      prototype
    }

    /** OrdinaryIsExtensible: the stored [[Extensible]] flag. */
    function IsExtensible(): (r: bool)
      reads this
      ensures r == extensible
    {
      extensible
    }

    /** OrdinaryPreventExtensions: clears the flag, always succeeds, touches nothing else. */
    method PreventExtensions() returns (ok: bool)
      requires Valid()
      modifies this
      ensures Valid()
      ensures ok && !extensible
      ensures props == old(props) && slots == old(slots) && prototype == old(prototype)
    {
      extensible := false;
      ok := true;
    }

    /**
     * OrdinaryDelete: succeeds on an absent key and on a configurable
     * property, which it removes; fails on a non-configurable one, which stays.
     */
    method Delete(key: PropertyKey) returns (ok: bool)
      requires Valid()
      modifies this
      ensures Valid()
      ensures ok <==> old(GetOwnProperty(key)).None? || old(GetOwnProperty(key)).value.IsConfigurable()
      ensures props == if ok then OrderedMaps.Remove(old(props), key) else old(props)
      ensures ok ==> GetOwnProperty(key).None?
      ensures old(GetOwnProperty(key)).None? ==> props == old(props)
      ensures forall k :: k != key ==> GetOwnProperty(k) == old(GetOwnProperty(k))
      ensures slots == old(slots) && prototype == old(prototype) && extensible == old(extensible)
    {
      match GetOwnProperty(key) {
        case None =>
          OrderedMaps.RemoveAbsent(props, key);
          ok := true;
        case Some(desc) =>
          if desc.IsConfigurable() {
            ghost var before := props;
            props := OrderedMaps.Remove(props, key);
            OrderedMaps.RemoveDistinct(before, key);
            forall k
              ensures OrderedMaps.Get(props, k) == if k == key then None else OrderedMaps.Get(before, k)
            {
              OrderedMaps.GetRemove(before, key, k);
            }
            ok := true;
          } else {
            ok := false;
          }
      }
    }

    /** `p262_has_slot`: whether a slot of that name exists, whatever its type. */
    function HasSlot(name: string): (r: bool)
      reads this
      ensures r <==> GetSlot(name).Some?
    {
      name in slots
    }

    /** The untyped slot look-up underneath `p262_get_slot`. */
    function GetSlot(name: string): (r: Option<SlotValue>)
      reads this
      ensures r.Some? ==> name in slots && slots[name] == r.value
      ensures r.None? ==> name !in slots
    {
      if name in slots then Some(slots[name]) else None
    }

    /** `p262_get_slot::<bool>`: the slot's flag, or None when the slot is missing or holds another type. */
    function GetBoolSlot(name: string): (r: Option<bool>)
      reads this
      ensures r.Some? <==> HasSlot(name) && GetSlot(name).value.BoolSlot?
      ensures r.Some? ==> GetSlot(name) == Some(BoolSlot(r.value))
    {
      match GetSlot(name)
      case Some(BoolSlot(flag)) => Some(flag)
      case _ => None
    }
  }

  /**
   * The checks a non-configurable current property imposes on a non-empty
   * descriptor (objects.rs lines 184-231). As written, the `enumerable` test
   * rejects a descriptor whose `enumerable` EQUALS the current one.
   */
  predicate NonConfigurableAllows(desc: Descriptor, current: Property)
  {
    if desc.configurable == Some(true) then false
    else if desc.enumerable == Some(current.IsEnumerable()) then false
    else if !desc.IsGeneric() && desc.IsAccessor() != current.IsAccessor() then false
    else
      match current
      case Accessor(currentGet, currentSet, _, _) =>
        && !(desc.getter.Some? && !Testing.SameValue(desc.getter.value, currentGet.GetOr(Undefined)))
        && !(desc.setter.Some? && !Testing.SameValue(desc.setter.value, currentSet.GetOr(Undefined)))
      case Data(currentValue, currentWritable, _, _) =>
        || currentWritable
        || (desc.writable != Some(true) && !(desc.value.Some? && !Testing.SameValue(desc.value.value, currentValue)))
  }

  /**
   * `e262_is_compatible_property_descriptor`: the verdict of
   * ValidateAndApplyPropertyDescriptor, which is all it computes when no
   * object is supplied.
   */
  function IsCompatiblePropertyDescriptor(extensible: bool, desc: Descriptor, current: Option<Property>): (r: bool)
    ensures current.None? ==> (r <==> extensible)
    ensures current.Some? && desc.IsEmpty() ==> r
    ensures current.Some? && current.value.IsConfigurable() ==> r
    ensures current.Some? && !desc.IsEmpty() && !current.value.IsConfigurable() ==>
              (r <==> NonConfigurableAllows(desc, current.value))
  {
    match current
    case None => extensible
    case Some(cur) =>
      if desc.IsEmpty() then true
      else if !cur.IsConfigurable() then NonConfigurableAllows(desc, cur)
      else true
  }

  /** The descriptor keeps the current property's shape (data stays data, accessor stays accessor). */
  predicate KeepsShape(desc: Descriptor, current: Property) {
    if current.Accessor? then desc.IsAccessor() else desc.IsData()
  }

  /**
   * The property written over `current` on the apply path (objects.rs lines
   * 234-277). A same-shape descriptor yields a property built from its own
   * fields alone; otherwise the shape flips and only `enumerable` and
   * `configurable` fall back to the current property. A generic descriptor
   * never keeps the shape.
   */
  function Reconcile(desc: Descriptor, current: Property): (p: Property)
    ensures p.IsAccessor() == (current.IsAccessor() == KeepsShape(desc, current))
    ensures p.Accessor? ==> p.getter == desc.getter && p.setter == desc.setter
    ensures p.Data? ==> p.value == desc.value.GetOr(Undefined) && p.writable == desc.writable.GetOr(false)
    ensures KeepsShape(desc, current) ==>
              p.enumerable == desc.enumerable.GetOr(false) && p.configurable == desc.configurable.GetOr(false)
    ensures !KeepsShape(desc, current) ==>
              p.enumerable == desc.enumerable.GetOr(current.enumerable) &&
              p.configurable == desc.configurable.GetOr(current.configurable)
  {
    match current
    case Accessor(_, _, enumerable, configurable) =>
      if desc.IsAccessor() then
        Accessor(desc.getter, desc.setter, desc.enumerable.GetOr(false), desc.configurable.GetOr(false))
      else
        Data(desc.value.GetOr(Undefined), desc.writable.GetOr(false),
             desc.enumerable.GetOr(enumerable), desc.configurable.GetOr(configurable))
    case Data(_, _, enumerable, configurable) =>
      if desc.IsData() then
        Data(desc.value.GetOr(Undefined), desc.writable.GetOr(false),
             desc.enumerable.GetOr(false), desc.configurable.GetOr(false))
      else
        Accessor(desc.getter, desc.setter, desc.enumerable.GetOr(enumerable), desc.configurable.GetOr(configurable))
  }

  /**
   * What ValidateAndApplyPropertyDescriptor stores when given an object:
   * the completed descriptor for a new key, the reconciled property for an
   * existing one, and nothing when it fails or the descriptor is empty.
   */
  function AppliedProperty(extensible: bool, desc: Descriptor, current: Option<Property>): (r: Option<Property>)
    ensures r.Some? ==> IsCompatiblePropertyDescriptor(extensible, desc, current)
    ensures current.None? ==> r == if extensible then Some(CompletePropertyDescriptor(desc)) else None
    ensures current.Some? ==>
              r == if IsCompatiblePropertyDescriptor(extensible, desc, current) && !desc.IsEmpty()
                   then Some(Reconcile(desc, current.value)) else None
  {
    if !IsCompatiblePropertyDescriptor(extensible, desc, current) then None
    else
      match current
      case None => Some(CompletePropertyDescriptor(desc))
      case Some(cur) => if desc.IsEmpty() then None else Some(Reconcile(desc, cur))
  }

  /**
   * `e262_validate_and_apply_property_descriptor`. `obj == null` is the
   * validation-only mode: nothing is written. With an object, the property
   * under `key` is overwritten (or appended) with AppliedProperty and every
   * other key keeps its property.
   */
  method ValidateAndApplyPropertyDescriptor(
    obj: BaseObject?, key: PropertyKey, extensible: bool, desc: Descriptor, current: Option<Property>)
    returns (ok: bool)
    requires obj != null ==> obj.Valid()
    modifies obj
    ensures ok == IsCompatiblePropertyDescriptor(extensible, desc, current)
    ensures obj != null ==> obj.Valid()
    ensures obj != null ==>
              obj.slots == old(obj.slots) && obj.prototype == old(obj.prototype) && obj.extensible == old(obj.extensible)
    ensures obj != null ==>
              obj.props == match AppliedProperty(extensible, desc, current)
                           case None => old(obj.props)
                           case Some(p) => OrderedMaps.Insert(old(obj.props), key, p)
    ensures obj != null && AppliedProperty(extensible, desc, current).Some? ==>
              obj.GetOwnProperty(key) == AppliedProperty(extensible, desc, current)
    ensures obj != null ==> forall k :: k != key ==> obj.GetOwnProperty(k) == old(obj.GetOwnProperty(k))
  {
    match current {
      case None =>
        if !extensible {
          return false;
        }
        if obj == null {
          return true;
        }
        var prop := CompletePropertyDescriptor(desc);
        Store(obj, key, prop);
        return true;
      case Some(cur) =>
        if desc.IsEmpty() {
          return true;
        } else if !cur.IsConfigurable() {
          if desc.configurable == Some(true) {
            return false;
          } else if desc.enumerable == Some(cur.IsEnumerable()) {
            return false;
          } else if !desc.IsGeneric() && desc.IsAccessor() != cur.IsAccessor() {
            return false;
          }
          match cur {
            case Accessor(currentGet, currentSet, _, _) =>
              if desc.getter.Some? && !Testing.SameValue(desc.getter.value, currentGet.GetOr(Undefined)) {
                return false;
              }
              if desc.setter.Some? && !Testing.SameValue(desc.setter.value, currentSet.GetOr(Undefined)) {
                return false;
              }
            case Data(currentValue, currentWritable, _, _) =>
              if !currentWritable {
                if desc.writable == Some(true) {
                  return false;
                }
                if desc.value.Some? && !Testing.SameValue(desc.value.value, currentValue) {
                  return false;
                }
              }
          }
        }
        if obj != null {
          var prop := Reconcile(desc, cur);
          Store(obj, key, prop);
        }
    }
    return true;
  }

  /** `props.insert(key, prop)`: overwrite or append one entry, keeping all others. */
  method Store(obj: BaseObject, key: PropertyKey, prop: Property)
    requires obj.Valid()
    modifies obj
    ensures obj.Valid()
    ensures obj.props == OrderedMaps.Insert(old(obj.props), key, prop)
    ensures obj.slots == old(obj.slots) && obj.prototype == old(obj.prototype) && obj.extensible == old(obj.extensible)
    ensures obj.GetOwnProperty(key) == Some(prop)
    ensures forall k :: k != key ==> obj.GetOwnProperty(k) == old(obj.GetOwnProperty(k))
  {
    ghost var before := obj.props;
    obj.props := OrderedMaps.Insert(obj.props, key, prop);
    OrderedMaps.InsertDistinct(before, key, prop);
    forall k
      ensures OrderedMaps.Get(obj.props, k) == if k == key then Some(prop) else OrderedMaps.Get(before, k)
    {
      OrderedMaps.GetInsert(before, key, prop, k);
    }
  }

  /** A non-configurable property turns away each of the changes objects.rs lines 184-231 test for. */
  lemma NonConfigurableRejections(extensible: bool, desc: Descriptor, current: Property)
    requires !current.IsConfigurable()
    ensures desc.configurable == Some(true) ==> !IsCompatiblePropertyDescriptor(extensible, desc, Some(current))
    ensures desc.enumerable == Some(current.enumerable) ==> !IsCompatiblePropertyDescriptor(extensible, desc, Some(current))
    ensures !desc.IsGeneric() && desc.IsAccessor() != current.IsAccessor() ==>
              !IsCompatiblePropertyDescriptor(extensible, desc, Some(current))
    ensures current.Data? && !current.writable && desc.writable == Some(true) ==>
              !IsCompatiblePropertyDescriptor(extensible, desc, Some(current))
    ensures current.Data? && !current.writable && desc.value.Some? && desc.value.value != current.value ==>
              !IsCompatiblePropertyDescriptor(extensible, desc, Some(current))
    ensures current.Accessor? && desc.getter.Some? && desc.getter.value != current.getter.GetOr(Undefined) ==>
              !IsCompatiblePropertyDescriptor(extensible, desc, Some(current))
    ensures current.Accessor? && desc.setter.Some? && desc.setter.value != current.setter.GetOr(Undefined) ==>
              !IsCompatiblePropertyDescriptor(extensible, desc, Some(current))
  {
  }

  /**
   * The `enumerable` test is inverted with respect to ECMA-262 section
   * 10.1.6.3: against a non-configurable property, a descriptor carrying
   * only `enumerable` is refused when it repeats the current value and
   * accepted when it changes it.
   */
  lemma EnumerableCheckInverted(extensible: bool, current: Property, enumerable: bool)
    requires !current.IsConfigurable()
    ensures IsCompatiblePropertyDescriptor(extensible, Descriptor(None, None, None, None, Some(enumerable), None), Some(current))
            <==> enumerable != current.enumerable
  {
  }

  /** An absent getter or setter of a non-configurable accessor compares as undefined. */
  lemma AbsentAccessorFunctionIsUndefined(extensible: bool, enumerable: bool)
    ensures IsCompatiblePropertyDescriptor(extensible, Descriptor(None, None, Some(Undefined), Some(Undefined), None, None),
                                           Some(Accessor(None, None, enumerable, false)))
    ensures !IsCompatiblePropertyDescriptor(extensible, Descriptor(None, None, Some(Null), None, None, None),
                                            Some(Accessor(None, None, enumerable, false)))
  {
  }

  /**
   * A non-writable, non-configurable data property accepts its own value
   * again, as a no-op, and refuses any other value.
   */
  lemma NonWritableValueLock(extensible: bool)
    ensures var current := Data(Number(Numbers.Finite(1.0)), false, false, false);
            && !IsCompatiblePropertyDescriptor(extensible, Descriptor(Some(Number(Numbers.Finite(2.0))), None, None, None, None, None), Some(current))
            && AppliedProperty(extensible, Descriptor(Some(Number(Numbers.Finite(1.0))), None, None, None, None, None), Some(current))
               == Some(current)
  {
  }

  /**
   * A non-empty generic descriptor flips the stored shape: data becomes a
   * bare accessor, an accessor becomes an undefined read-only data property.
   */
  lemma GenericDescriptorFlipsShape(desc: Descriptor, current: Property)
    requires desc.IsGeneric() && !desc.IsEmpty()
    ensures current.Data? ==>
              Reconcile(desc, current) ==
              Accessor(None, None, desc.enumerable.GetOr(current.enumerable), desc.configurable.GetOr(current.configurable))
    ensures current.Accessor? ==>
              Reconcile(desc, current) ==
              Data(Undefined, false, desc.enumerable.GetOr(current.enumerable), desc.configurable.GetOr(current.configurable))
  {
  }

  /**
   * So a non-configurable property does change shape: flipping `enumerable`
   * on a non-configurable data property is accepted and stores an accessor.
   */
  lemma NonConfigurableShapeCanChange(extensible: bool, value: Value, writable: bool, enumerable: bool)
    ensures var current := Data(value, writable, enumerable, false);
            var desc := Descriptor(None, None, None, None, Some(!enumerable), None);
            && IsCompatiblePropertyDescriptor(extensible, desc, Some(current))
            && AppliedProperty(extensible, desc, Some(current)) == Some(Accessor(None, None, !enumerable, false))
  {
  }

  /**
   * A same-shape descriptor is applied from its own fields alone: the
   * current property's attributes are not carried over.
   */
  lemma SameShapeIgnoresCurrent(desc: Descriptor, current: Property, other: Property)
    requires KeepsShape(desc, current) && current.IsAccessor() == other.IsAccessor()
    ensures Reconcile(desc, current) == Reconcile(desc, other)
    ensures current.Data? && desc == Descriptor(Some(current.value), None, None, None, None, None) ==>
              Reconcile(desc, current) == Data(current.value, false, false, false)
  {
  }

  /**
   * Redefining a stored property with its own descriptor succeeds only when
   * the property is configurable (the inverted `enumerable` test refuses it
   * otherwise), and leaves it as it was unless it is a bare accessor.
   */
  lemma RedefiningStoredProperty(extensible: bool, p: Property)
    ensures IsCompatiblePropertyDescriptor(extensible, ToDescriptor(p), Some(p)) <==> p.configurable
    ensures Reconcile(ToDescriptor(p), p) == p <==> p.Data? || p.getter.Some? || p.setter.Some?
  {
    if p.Accessor? && p.getter.None? && p.setter.None? {
      assert Reconcile(ToDescriptor(p), p).Data?;
    }
  }
}

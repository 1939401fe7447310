# project262 object-model core in Dafny

This project models the object-model core of project262, an ECMAScript engine written in Rust, and proves properties of the model. The core covers:

- the language values, with the SameValue family of equalities and strict equality;
- ToBoolean and the other small abstract operations on values;
- symbols and the `Symbol.for` registry;
- completion records;
- the ordinary-object own-property store with its internal methods, centred on
  ValidateAndApplyPropertyDescriptor.

## Files

| file | module | source |
|---|---|---|
| `wrappers.dfy` | `Wrappers` | Rust `Option` and `Result` |
| `errors.dfy` | `Errors` | `src/errors/mod.rs` |
| `ids.dfy` | `Ids` | `src/core/id.rs` |
| `numbers.dfy` | `Numbers` | `src/core/numbers.rs` |
| `symbols.dfy` | `Symbols` | `src/core/symbol.rs` |
| `values.dfy` | `Values` | `src/core/value.rs`, `src/core/string.rs` |
| `testing.dfy` | `Testing` | `src/core/test.rs` |
| `cast.dfy` | `Cast` | `src/core/cast.rs` |
| `completions.dfy` | `Completions` | `src/completions/mod.rs` |
| `property.dfy` | `Properties` | `src/core/property.rs` |
| `ordered_maps.dfy` | `OrderedMaps` | the `OrderMap` holding `BaseObject::props` |
| `objects.dfy` | `Objects` | `src/core/objects.rs` |
| `annex_b.dfy` | `AnnexB` | `src/core/annex_b.rs` |

## How the source is represented

- **Doubles.** An `f64` is the datatype `NaN | Zero(negative) | Infinity(negative) | Finite(v)`, where `v` is a non-zero real. `FloatEq` is Rust's `==` on doubles. It is structural equality, except that NaN equals nothing and the two zeros are equal. A BigInt is a Dafny `int`.
- **Identities.** A `MagicId` is a natural drawn from an `IdSource` counter, so every symbol gets a new identity. `ObjectRep` keeps only its identity. Its equality compares identities (`objects.rs:305-309`), so Dafny's `==` on it is exactly that equality.
- **Own properties.** `props` is an association list with distinct keys (`OrderedMaps`):
  - inserting an existing key replaces that entry where it stands;
  - inserting a new key appends it;
  - removing a key keeps the order of the other entries.
- **BaseObject.** `BaseObject` is a class with the fields `props`, `slots`, `prototype` and `extensible`. Delete, PreventExtensions and the insertions of ValidateAndApplyPropertyDescriptor are methods that change those fields. The read-only internal methods are functions that read them.
- **ValidateAndApplyPropertyDescriptor** is split into three parts:
  - `IsCompatiblePropertyDescriptor` gives the verdict. It is also the source's validation-only wrapper.
  - `Reconcile` and `AppliedProperty` give the property that gets written.
  - The method `ValidateAndApplyPropertyDescriptor` follows the source's branch order. Its postcondition ties the result and the new `props` to those functions. A null object is the source's `obj = None`, and then nothing is written.
- **Field names.** The Rust descriptor and property fields `get` and `set` are named `getter` and `setter`, because `set` is a Dafny keyword.
- **The `annex-b` feature** is a boolean parameter, `annexB`.

### Departures from ECMA-262, kept as written

The model follows the code, and lemmas exhibit each of these departures:

- `objects.rs:186` rejects a change to a non-configurable property when the descriptor's `enumerable` equals the current one. It accepts the change when `enumerable` differs. See `EnumerableCheckInverted`. As a consequence, redefining a non-configurable property with its own descriptor fails (`RedefiningStoredProperty`).
- `objects.rs:240-275`: a non-empty generic descriptor flips a property between data and accessor. This also happens to non-configurable properties (`GenericDescriptorFlipsShape`, `NonConfigurableShapeCanChange`).
- `objects.rs:240-267`: a same-shape descriptor replaces the property using only its own fields. Missing fields default to undefined or false and are not carried over (`SameShapeIgnoresCurrent`).
- `property.rs:206`: a completed data property takes `configurable` from the descriptor's `enumerable` (`CompleteConfigurableFollowsEnumerable`). Completing a property's own descriptor therefore does not always give the property back (`CompleteToDescriptorRoundTrip`).
- `cast.rs:19-20`: with `annex-b` on, every object is falsy, not only objects carrying [[IsHTMLDDA]] (`Cast.FalsyValues`, `AnnexB.ToBooleanIgnoresIsHTMLDDA`).

## Model

| member | source | states |
|---|---|---|
| `Numbers.MaxSafeIntegerIsTwoToThe53MinusOne` | src/core/numbers.rs:1 | MAX_SAFE_INTEGER is 2^53 − 1 |
| `Numbers.FloatEq` | src/core/numbers.rs:9 | f64 `==` holds exactly for non-NaN operands that are identical or both zeros |
| `Numbers.ZeroClassifiers` | src/core/numbers.rs:34-96 | is_zero holds of both zeros; is_pos_zero and is_neg_zero split them; is_pos_inf/is_neg_inf pick one infinity; the unit tests' cases |
| `Numbers.Equal` | src/core/numbers.rs:3-11 | false if either side is NaN, true for any two zeros, and in all cases equal to IEEE `==` |
| `Numbers.SameValue` | src/core/numbers.rs:13-21 | true exactly for identical values: NaN equals NaN, +0 differs from −0 |
| `Numbers.SameValueZero` | src/core/numbers.rs:23-32 | true for identical values and for any two zeros |
| `Numbers.ComparisonsAgreeOffNaNAndZero` | src/core/numbers.rs:3-32 | away from NaN and the pair of zeros, all three comparisons are plain `==` |
| `Numbers.ComparisonsOnNaNAndZeros` | src/core/numbers.rs:3-32 | the three comparisons on NaN/NaN and +0/−0 |
| `Ids.IdSource.Fresh` | src/core/id.rs:8-10 | each identity drawn is new: it equals the counter, which then advances |
| `Symbols.New` | src/core/symbol.rs:43-45 | the symbol has the given description and a fresh identity |
| `Symbols.Anon` | src/core/symbol.rs:33-35 | the symbol has no description and a fresh identity |
| `Symbols.Named` | src/core/symbol.rs:38-40 | the symbol is described by the argument and has a fresh identity |
| `Symbols.NamedSymbolsHaveIdentity` | src/core/symbol.rs:64-71 | two symbols named "foo" outside the registry are unequal |
| `Symbols.SymbolRegistry.constructor` | src/core/symbol.rs:9-12 | a new registry is empty |
| `Symbols.SymbolRegistry.Get` | src/core/symbol.rs:16-22 | returns the registered symbol if the description is present, leaving the map unchanged; otherwise registers a fresh symbol described by the key; the map only grows |
| `Symbols.RegistryReturnsSameSymbol` | src/core/symbol.rs:73-80 | two look-ups of one description return equal symbols |
| `Values.BooleanValue` | src/core/value.rs:34-36 | gives the Boolean variant holding the argument |
| `Values.NumberValue` | src/core/value.rs:39-41 | gives the Number variant holding the argument |
| `Values.NullValue` | src/core/value.rs:44-46 | gives Null |
| `Values.UndefinedValue` | src/core/value.rs:64-66 | gives Undefined |
| `Values.StrValue` | src/core/value.rs:49-56 | `p262_str` and `p262_string` both give a String holding exactly the text passed in |
| `Values.SymbolValue` | src/core/value.rs:59-61 | gives a Symbol with the given description and a fresh identity |
| `Values.BigIntValue` | src/core/value.rs:29-31 | None exactly for NaN and infinities; an integer is kept; an integral double gives its value |
| `Values.ConstructorsAndStructuralEquality` | src/core/value.rs:72-130 | Null ≠ Undefined, true ≠ false, str and string values are equal iff their text is, the bigint test cases |
| `Testing.TypeTagsSeparateVariants` | src/core/test.rs:75-98 | two values share a type tag iff they are the same variant |
| `Testing.IsIntegralNumber` | src/core/test.rs:5-11 | false for every non-Number and every non-finite Number; true for zeros; for finite non-zeros, true iff equal to its floor |
| `Testing.SameValueNonNumber` | src/core/test.rs:62-73 | requires equal tags other than Number (else unreachable); equals structural equality: text for strings, identity and description for symbols, identity for objects |
| `Testing.IsStrictlyEqual` | src/core/test.rs:13-22 | false on differing tags; IEEE `==` on Numbers, structural equality otherwise |
| `Testing.SameValue` | src/core/test.rs:40-49 | false on differing tags; true exactly for identical values |
| `Testing.SameValueZero` | src/core/test.rs:51-60 | false on differing tags; identical values, or two Number zeros |
| `Testing.EqualitiesDelegate` | src/core/test.rs:13-60 | on one tag, Numbers go to the Number comparisons, everything else to SameValueNonNumber |
| `Testing.EqualitiesReflexiveSymmetric` | src/core/test.rs:13-60 | SameValue and SameValueZero are reflexive and symmetric; strict equality is symmetric and not reflexive (NaN) |
| `Testing.EqualitiesOnNaNAndZeros` | src/core/test.rs:13-60 | SameValue(NaN, NaN); not SameValue(+0, −0); +0 === −0; SameValueZero(+0, −0) |
| `Testing.IsPropertyKey` | src/core/test.rs:24-26 | true exactly for String and Symbol values |
| `Testing.RequireObjectCoercible` | src/core/test.rs:28-38 | a TypeError exactly for Null and Undefined, otherwise the argument unchanged |
| `Cast.ToBoolean` | src/core/cast.rs:10-26 | the ToBoolean table per variant; objects are truthy iff `annex-b` is off |
| `Cast.FalsyValues` | src/core/cast.rs:10-26 | the falsy values are false, null, undefined, ±0, NaN, 0n, "" and, under `annex-b`, every object |
| `Completions.FromResult` | src/completions/mod.rs:23-30 | Ok(v) becomes Normal(v), Err(e) becomes Throw(e), never Return/Break/Continue |
| `Completions.FromResultRoundTrip` | src/completions/mod.rs:23-30 | reading the completion back recovers the result |
| `Completions.FromResultInjective` | src/completions/mod.rs:23-30 | distinct results give distinct completions |
| `Properties.PropertyClassifiers` | src/core/property.rs:32-58 | a property is exactly one of accessor and data; its flags are the stored variant's |
| `Properties.DescriptorClassifiers` | src/core/property.rs:110-131 | empty implies generic; only the default descriptor is empty; generic means no value/writable/get/set; a descriptor can be both data and accessor |
| `Properties.IsAccessorDescriptor` | src/core/property.rs:172-177 | false for None; for Some(d), whether d has a getter or setter |
| `Properties.IsDataDescriptor` | src/core/property.rs:179-184 | false for None; for Some(d), whether d has a value or writable |
| `Properties.IsGenericDescriptor` | src/core/property.rs:186-191 | false for None; for Some(d), neither accessor nor data |
| `Properties.CompletePropertyDescriptor` | src/core/property.rs:193-208 | accessor-shaped descriptors become Accessors keeping get/set; others become Data with undefined/false defaults; a Data result's configurable equals its enumerable |
| `Properties.CompleteConfigurableFollowsEnumerable` | src/core/property.rs:201-208 | `configurable: true` alone completes to non-configurable; `enumerable: true` alone completes to configurable |
| `Properties.ToDescriptor` | src/core/property.rs:139-170 | enumerable/configurable are present; data gives value/writable without get/set; accessor copies get/set without value/writable; never empty |
| `Properties.CompleteToDescriptorRoundTrip` | src/core/property.rs:139-208 | complete(from(p)) == p iff p is an accessor with a getter or setter, or data with enumerable == configurable |
| `Properties.BareAccessorCompletesToData` | src/core/property.rs:193-208 | an accessor with neither getter nor setter comes back as an undefined, read-only Data property |
| `OrderedMaps.Get` | src/core/objects.rs:121 | present exactly for the keys of the table, with the stored entry |
| `OrderedMaps.GetInsert` | src/core/objects.rs:174 | after an insert the key maps to the new property, every other key as before |
| `OrderedMaps.KeysInsert` | src/core/objects.rs:174 | insert keeps the key order, appending only a new key |
| `OrderedMaps.InsertDistinct` | src/core/objects.rs:280 | insert keeps keys distinct |
| `OrderedMaps.GetRemove` | src/core/objects.rs:106 | after a remove the key is absent, every other key as before |
| `OrderedMaps.KeysRemove` | src/core/objects.rs:106 | remove keeps the order of the remaining keys |
| `OrderedMaps.RemoveDistinct` | src/core/objects.rs:106 | remove keeps keys distinct |
| `OrderedMaps.RemoveAbsent` | src/core/objects.rs:100-102 | removing an absent key changes nothing |
| `Objects.BaseObject.constructor` | src/core/objects.rs:57-62 | a new object has no own properties, the given prototype and slots, and is extensible |
| `Objects.BaseObject.GetOwnProperty` | src/core/objects.rs:115-122 | the own property stored under the key, if any; no prototype walk; reads only |
| `Objects.BaseObject.GetPrototypeOf` | src/core/objects.rs:124-128 | the stored prototype link; reads only |
| `Objects.BaseObject.IsExtensible` | src/core/objects.rs:130-133 | the stored extensible flag; reads only |
| `Objects.BaseObject.PreventExtensions` | src/core/objects.rs:135-139 | returns true and leaves extensible false; nothing else changes, so a second call changes nothing |
| `Objects.BaseObject.Delete` | src/core/objects.rs:100-113 | true and nothing changes for an absent key; true and exactly that key removed for a configurable property; false and nothing changes for a non-configurable one; other keys untouched |
| `Objects.BaseObject.HasSlot` | src/core/objects.rs:295-299 | whether a slot of that name exists |
| `Objects.BaseObject.GetSlot` | src/core/objects.rs:287-293 | the slot's value if the slot exists |
| `Objects.BaseObject.GetBoolSlot` | src/core/objects.rs:287-293 | the slot's flag when the slot exists and holds a bool, otherwise None |
| `Objects.IsCompatiblePropertyDescriptor` | src/core/objects.rs:141-153 | with no current property, the verdict is extensible; an empty descriptor or a configurable current property passes; otherwise the non-configurable checks decide |
| `Objects.Reconcile` | src/core/objects.rs:233-277 | same shape: built from the descriptor alone; shape change: only enumerable/configurable fall back to current; get/set and value/writable come from the descriptor with None/undefined/false defaults |
| `Objects.AppliedProperty` | src/core/objects.rs:163-283 | writes the completed descriptor for a new key on an extensible object, the reconciled property for a valid non-empty descriptor, nothing otherwise |
| `Objects.ValidateAndApplyPropertyDescriptor` | src/core/objects.rs:156-285 | result equals IsCompatiblePropertyDescriptor; without an object nothing is written; with one, the key is overwritten with AppliedProperty and other keys keep their properties |
| `Objects.Store` | src/core/objects.rs:278-280 | the insert: the key gets the property, every other key is unchanged |
| `Objects.NonConfigurableRejections` | src/core/objects.rs:183-231 | configurable: true, equal enumerable, a shape change, writable: true or a different value on a non-writable data property, or a different get/set (absent read as undefined) are all rejected |
| `Objects.EnumerableCheckInverted` | src/core/objects.rs:186-187 | a descriptor with only enumerable is accepted iff it differs from the current value |
| `Objects.AbsentAccessorFunctionIsUndefined` | src/core/objects.rs:191-213 | undefined get/set match an accessor whose get/set are absent; null does not |
| `Objects.NonWritableValueLock` | src/core/objects.rs:215-230 | a locked data property refuses a different value and accepts its own value as a no-op |
| `Objects.GenericDescriptorFlipsShape` | src/core/objects.rs:240-275 | a non-empty generic descriptor turns data into a bare accessor and an accessor into undefined read-only data |
| `Objects.NonConfigurableShapeCanChange` | src/core/objects.rs:183-275 | flipping enumerable on a non-configurable data property is accepted and stores an accessor |
| `Objects.SameShapeIgnoresCurrent` | src/core/objects.rs:240-267 | a same-shape result does not depend on the current property; `{value}` alone drops writable/enumerable/configurable to false |
| `Objects.RedefiningStoredProperty` | src/core/objects.rs:179-277 | a property's own descriptor is accepted iff the property is configurable, and reproduces it unless it is a bare accessor |
| `AnnexB.IsDocumentDotAll` | src/core/annex_b.rs:6-15 | true iff `annex-b` is on and the IsHTMLDDA slot holds true; reads the object only |
| `AnnexB.ToBooleanIgnoresIsHTMLDDA` | src/core/cast.rs:18-24 | under `annex-b` an object without the slot is still falsy |

## Left out

- The prototype-chain operations SetPrototypeOf, has_property, define_own_property, get, set and own_property_keys are not modelled. They are commented out of the `Object` trait (`objects.rs:30`, `objects.rs:41-52`) and have no implementation.
- ToNumber, ToIntegerOrInfinity and ToLength are not modelled. Only the `IntegerOrInfinity` type exists (`cast.rs:4-8`), and it is declared as `Cast.IntegerOrInfinity`.
- IEEE-754 arithmetic and rounding are not modelled. A finite double is the real it denotes, so precision and NaN payloads are absent. `floor` and the truncating BigInt conversion are exact on reals.
- Identities come from a counter. The source's random 64-bit tags are only probably unique.
- `Rc`/`RefCell`/`Cell` sharing, trait-object dispatch, `HasBaseObject` upcasting and exotic objects are flattened to the single class `BaseObject`.
- An `ObjectRep` keeps only its identity, so the object behind a handle cannot be reached from a `Value` or a prototype link.
- Slots hold a closed `SlotValue` (a bool or a value) instead of `dyn Any`. The generic `p262_get_slot::<T>` is modelled for `bool` (`GetBoolSlot`) and untyped (`GetSlot`).
- `OrderMap` internals are not modelled. Removal keeps the order of the remaining entries.
- `BaseObject` has no constructor in the source. The model's constructor starts an object with no own properties, starts it extensible, and takes its prototype and slots as arguments.
- The symbol registry is an object passed to its callers. It is not a process-wide singleton.
- `Debug`/`Display` implementations and module wiring are not modelled.
- `CoreError` and `StringRep` are datatypes only. The borrowed/owned distinction of `StringRep` is dropped, since equality compares text.
- `e262_require_object_coercible` returns `CoreResult<Value>` with string messages, where the source writes a bare `CoreResult` and a `StringRep` message. `p262_is_document_dot_all` looks the slot up by the string name.
- `p262_bigint` takes any `ToBigInt`. The model takes an integer or a double.

/**
 * Symbols (`src/core/symbol.rs`): an identity plus an optional description,
 * and the registry behind `Symbol.for` (ECMA-262 section 20.4.2.2).
 */
module Symbols {
  import opened Wrappers
  import opened Ids

  /**
   * A symbol value. Equality is the derived one: identity and description
   * are both compared, so two symbols drawn separately never coincide.
   */
  datatype SymbolRep = SymbolRep(id: MagicId, description: Option<string>)

  /** `SymbolRep::new`: a symbol with the given description and a fresh identity. */
  method New(ids: IdSource, description: Option<string>) returns (s: SymbolRep)
    modifies ids
    ensures s.description == description
    ensures s.id == old(ids.next) && ids.next == old(ids.next) + 1
  {
    var id := ids.Fresh();
    s := SymbolRep(id, description);
  }

  /** `SymbolRep::anon`: a fresh symbol without a description. */
  method Anon(ids: IdSource) returns (s: SymbolRep)
    modifies ids
    ensures s.description == None
    ensures s.id == old(ids.next) && ids.next == old(ids.next) + 1
  {
    s := New(ids, None);
  }

  /** `SymbolRep::named`: a fresh symbol described by `description`. */
  method Named(ids: IdSource, description: string) returns (s: SymbolRep)
    modifies ids
    ensures s.description == Some(description)
    ensures s.id == old(ids.next) && ids.next == old(ids.next) + 1
  {
    s := New(ids, Some(description));
  }

  /** Two symbols named alike outside the registry are still distinct. */
  method NamedSymbolsHaveIdentity(ids: IdSource) returns (a: SymbolRep, b: SymbolRep)
    modifies ids
    ensures a.description == b.description == Some("foo")
    ensures a != b
  {
    a := Named(ids, "foo");
    b := Named(ids, "foo");
  }

  /** The process-wide map from description to its canonical symbol. */
  class SymbolRegistry {
    var entries: map<string, SymbolRep>

    /** Every registered symbol carries its key as description and an identity already issued by `ids`. */
    ghost predicate Valid(ids: IdSource)
      reads this, ids
    {
      forall d :: d in entries ==> entries[d].description == Some(d) && entries[d].id < ids.next
    }

    constructor ()
      ensures entries == map[]
    {
      entries := map[];
    }

    /**
     * `SymbolRegistry::get`: the symbol registered for `description`,
     * created and registered on first use. Entries are only ever added.
     */
    method Get(ids: IdSource, description: string) returns (s: SymbolRep)
      requires Valid(ids)
      modifies this, ids
      ensures Valid(ids)
      ensures s.description == Some(description)
      ensures description in entries && entries[description] == s
      ensures description in old(entries) ==>
                s == old(entries)[description] && entries == old(entries) && ids.next == old(ids.next)
      ensures description !in old(entries) ==>
                entries == old(entries)[description := s] &&
                s.id == old(ids.next) && ids.next == old(ids.next) + 1
    {
      if description in entries {
        s := entries[description];
      } else {
        s := Named(ids, description);
        entries := entries[description := s];
      }
    }
  }

  /** Asking the registry twice for one description yields one symbol. */
  method RegistryReturnsSameSymbol(registry: SymbolRegistry, ids: IdSource, description: string)
    returns (a: SymbolRep, b: SymbolRep)
    requires registry.Valid(ids)
    modifies registry, ids
    ensures registry.Valid(ids)
    ensures a == b && a.description == Some(description)
  {
    a := registry.Get(ids, description);
    b := registry.Get(ids, description);
  }
}

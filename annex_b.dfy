/** The Annex B [[IsHTMLDDA]] check (`src/core/annex_b.rs`, ECMA-262 section B.3.6). */
module AnnexB {
  import opened Wrappers
  import opened Values
  import opened Objects
  import Cast

  const IsHTMLDDA: string := "IsHTMLDDA"

  /**
   * `p262_is_document_dot_all`: with the `annex-b` feature on, the boolean
   * held in the object's IsHTMLDDA slot (false when the slot is missing or
   * holds something else); with it off, false. It only reads the object.
   */
  function IsDocumentDotAll(obj: BaseObject, annexB: bool): (r: bool)
    reads obj
    ensures r <==> annexB && IsHTMLDDA in obj.slots && obj.slots[IsHTMLDDA] == BoolSlot(true)
  {
    if annexB then obj.GetBoolSlot(IsHTMLDDA).GetOr(false) else false
  }

  /**
   * ToBoolean does not consult the slot: with `annex-b` on, an object is
   * falsy even when IsDocumentDotAll is false for it.
   */
  lemma ToBooleanIgnoresIsHTMLDDA(obj: BaseObject, handle: ObjectRep)
    requires IsHTMLDDA !in obj.slots
    ensures !IsDocumentDotAll(obj, true) && !Cast.ToBoolean(Object(handle), true)
    ensures Cast.ToBoolean(Object(handle), false)
  {
  }
}

/**
 * Identities. The source draws a random 64-bit tag for every symbol and
 * object; here a counter hands out naturals, so every identity it issues
 * differs from all earlier ones.
 */
module Ids {

  type MagicId = nat

  class IdSource {
    /** Every identity issued so far is below `next`. */
    var next: nat

    constructor ()
      ensures next == 0
    {
      next := 0;
    }

    /** Draws an identity never issued before. */
    method Fresh() returns (id: MagicId)
      modifies this
      ensures id == old(next) && next == old(next) + 1
    {
      id := next;
      next := next + 1;
    }
  }
}

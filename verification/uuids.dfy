/** Version-4 UUIDs stand for identities that never repeat. The model keeps
    only that property: a generator hands out numbers it has not handed out
    before. */
module Uuids {

  /** A UUID, compared as the 128-bit number its bytes spell (big-endian). */
  type Uuid = nat

  class Generator {
    /** Every UUID issued so far is below `next`. */
    var next: nat

    constructor ()
      ensures next == 0
    {
      next := 0;
    }

    /** `Uuid::new_v4()`: a UUID that was never issued before. */
    method NewV4() returns (id: Uuid)
      modifies this
      ensures id == old(next) && next == old(next) + 1
    {
      id := next;
      next := next + 1;
    }
  }
}

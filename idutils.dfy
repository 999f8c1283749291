/** The store's counter-based id generator. */
module IdUtils {

  class IdGenerator {
    /** The last value handed out; 0 before the first call. */
    var id: nat

    /** A fresh generator, whose first `Next` therefore returns 1. */
    constructor ()
      ensures id == 0
    {
      id := 0;
    }

    /** Increments the counter and returns its new value, so every value exceeds all earlier ones. */
    method Next() returns (r: nat)
      modifies this
      ensures id == old(id) + 1
      ensures r == id
      ensures r > old(id)
    {
      id := id + 1;
      r := id;
    }
  }
}

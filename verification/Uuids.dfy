/** randomUUID, uuid.NewString and their kind: every call returns an id that was never seen before. */
module Uuids {
  class UuidSource {
    var next: nat
    ghost var issued: set<string>

    ghost predicate Valid()
      reads this
    {
      next > 0 && "" in issued && forall id :: id in issued ==> |id| < next
    }

    constructor ()
      ensures Valid() && issued == {""}
    {
      next := 1;
      issued := {""};
    }

    method NewString() returns (id: string)
      requires Valid()
      modifies this
      ensures Valid() && id !in old(issued) && issued == old(issued) + {id}
    {
      id := seq(next, i => '0');
      next := next + 1;
      issued := issued + {id};
    }
  }
}

/** The option type and an allocator of identities, shared by the other modules. */
module Wrappers {
  datatype Option<+T> = None | Some(value: T) {
    function GetOr(default: T): T { if Some? then value else default }
  }

  /** A finite set of identities never uses them all up. */
  lemma {:induction false} SomeFresh(ids: set<nat>)
    ensures exists id: nat :: id !in ids
  {
    var bound := Above(ids);
    assert bound !in ids;
  }

  ghost function Above(ids: set<nat>): (bound: nat)
    ensures forall i <- ids :: i < bound
  {
    if ids == {} then 0
    else
      var x :| x in ids;
      var rest := Above(ids - {x});
      assert forall i <- ids :: i == x || i in ids - {x};
      if x < rest then rest else x + 1
  }
}

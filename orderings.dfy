/**
 * Iteration over a Python dict or set visits each key once, in an order the
 * model does not fix; an ordering is any such visit.
 */
module Orderings {
  /** No element occurs twice in `order`. */
  predicate Distinct(order: seq<string>) {
    forall i, j :: 0 <= i < j < |order| ==> order[i] != order[j]
  }

  /** `order` visits every element of `keys` exactly once. */
  predicate IsOrdering(order: seq<string>, keys: set<string>) {
    Distinct(order) && (set n | n in order) == keys
  }

  /** Lists the elements of a set in some order, one pick at a time, as iterating the set does. */
  method Enumerate(keys: set<string>) returns (order: seq<string>)
    ensures IsOrdering(order, keys)
  {
    order := [];
    var remaining := keys;
    while remaining != {}
      invariant Distinct(order)
      invariant remaining <= keys
      invariant (set n | n in order) == keys - remaining
      decreases remaining
    {
      var key :| key in remaining;
      assert (set n | n in order + [key]) == (set n | n in order) + {key};
      order := order + [key];
      remaining := remaining - {key};
    }
  }
}

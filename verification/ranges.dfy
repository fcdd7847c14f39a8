/** Ranging over a map: every key once, in no particular order. */
module Ranges {
  method InSomeOrder<T>(keys: set<T>) returns (order: seq<T>)
    ensures forall k :: k in order <==> k in keys
    ensures forall i, j | 0 <= i < j < |order| :: order[i] != order[j]
  {
    var left := keys;
    order := [];
    while left != {}
      invariant forall k :: k in keys <==> k in order || k in left
      invariant forall k | k in order :: k !in left
      invariant forall i, j | 0 <= i < j < |order| :: order[i] != order[j]
      decreases |left|
    {
      var k :| k in left;
      left := left - {k};
      order := order + [k];
    }
  }
}

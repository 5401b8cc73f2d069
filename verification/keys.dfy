/** The keys of a map in the order of an iteration over it. */
module Keys {
  /** Every key once. */
  ghost predicate IsOrder<K, V>(o: map<K, V>, order: seq<K>) {
    && (forall k :: 0 <= k < |order| ==> order[k] in o)
    && (forall k, l :: 0 <= k < l < |order| ==> order[k] != order[l])
    && (forall key :: key in o ==> key in order)
  }

  /** Some order; the language gives one, and nothing may depend on it. */
  method KeysOf<K(==), V>(o: map<K, V>) returns (order: seq<K>)
    ensures IsOrder(o, order)
  {
    order := [];
    var rest := o.Keys;
    while rest != {}
      invariant rest <= o.Keys
      invariant forall k :: 0 <= k < |order| ==> order[k] in o && order[k] !in rest
      invariant forall k, l :: 0 <= k < l < |order| ==> order[k] != order[l]
      invariant forall key :: key in o && key !in rest ==> key in order
      decreases |rest|
    {
      var key :| key in rest;
      order := order + [key];
      rest := rest - {key};
    }
  }
}

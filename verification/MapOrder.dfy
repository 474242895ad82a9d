/** The unspecified orders in which a loop over a Go map may meet the keys. */
module MapOrder {

  /** The keys of the map, each once. */
  ghost predicate Enumerates<T>(order: seq<string>, values: map<string, T>) {
    (forall key :: key in order <==> key in values)
    && forall i, j :: 0 <= i < j < |order| ==> order[i] != order[j]
  }

  /** Every map can be visited in some order. */
  lemma {:induction false} AnyOrder<T>(values: map<string, T>) returns (order: seq<string>)
    ensures Enumerates(order, values)
    decreases values.Keys
  {
    if values == map[] {
      order := [];
    } else {
      var key :| key in values;
      var before := AnyOrder(values - {key});
      order := before + [key];
    }
  }

  /** Any key may come first. */
  lemma OrderStartingWith<T>(values: map<string, T>, key: string) returns (order: seq<string>)
    requires key in values
    ensures Enumerates(order, values) && order[0] == key
  {
    var rest := AnyOrder(values - {key});
    order := [key] + rest;
    assert key !in rest && order[1..] == rest;
    forall i, j | 0 <= i < j < |order| ensures order[i] != order[j] {
      assert order[j] == rest[j - 1] && (i > 0 ==> order[i] == rest[i - 1]);
    }
  }

  /** Any two keys may come first, or last in either order. */
  lemma OrdersAround<T>(values: map<string, T>, j: string, k: string) returns (rest: seq<string>)
    requires j in values && k in values && j != k
    ensures Enumerates([j, k] + rest, values)
    ensures Enumerates(rest + [j, k], values) && Enumerates(rest + [k, j], values)
    ensures forall key :: key in rest ==> key in values
  {
    rest := AnyOrder(values - {j, k});
    assert j !in rest && k !in rest;
  }

  /** The order in which one `range` over the map happens to meet the keys. */
  method Range<T>(values: map<string, T>) returns (order: seq<string>)
    ensures Enumerates(order, values)
  {
    var left := values.Keys;
    order := [];
    while left != {}
      invariant left <= values.Keys
      invariant forall key :: key in order <==> key in values && key !in left
      invariant forall i, j :: 0 <= i < j < |order| ==> order[i] != order[j]
      decreases left
    {
      var key :| key in left;
      left := left - {key};
      order := order + [key];
    }
  }
}

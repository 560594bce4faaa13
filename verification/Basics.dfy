/** Shared datatypes and the list vocabulary used by every other module. */
module Basics {

  datatype Option<+T> = None | Some(value: T)

  /** The two ways an operation of the operator returns to its caller. */
  datatype Result<+T> = Ok(value: T) | Err

  /** `order` visits every element of `keys` exactly once: one possible iteration of a Go map. */
  ghost predicate Enumerates<K(!new)>(order: seq<K>, keys: set<K>)
  {
    && (forall i, j :: 0 <= i < j < |order| ==> order[i] != order[j])
    && (forall k :: k in order <==> k in keys)
  }

  lemma EnumerationLength<K(!new)>(order: seq<K>, keys: set<K>)
    requires Enumerates(order, keys)
    ensures |order| == |keys|
  {
    if |order| == 0 {
      assert keys == {};
    } else {
      var last := |order| - 1;
      assert order == order[..last] + [order[last]];
      forall k ensures k in order[..last] <==> k in keys - {order[last]} {
        if k in order[..last] {
          var i :| 0 <= i < last && order[i] == k;
          assert order[i] != order[last];
        }
      }
      EnumerationLength(order[..last], keys - {order[last]});
    }
  }

  lemma NothingEnumerated<K(!new)>()
    ensures Enumerates<K>([], {})
  {
  }

  lemma EnumerationExtends<K(!new)>(order: seq<K>, keys: set<K>, k: K)
    requires Enumerates(order, keys) && k !in keys
    ensures Enumerates(order + [k], keys + {k})
  {
  }

  lemma {:induction false} SubsetSize<T>(a: set<T>, b: set<T>)
    requires a <= b
    ensures |a| <= |b|
  {
    if x :| x in a {
      SubsetSize(a - {x}, b - {x});
    }
  }
}

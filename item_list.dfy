/** The two list operations the Experience and Education editors share:
    `items.map(item => item.id === id ? edited : item)` and
    `items.filter(item => item.id !== id)`, over any item type with an id. */
module ItemList {
  /** Each item whose id is `id` is replaced by `apply(item, edit)`; every
      other item stays where it is, unchanged. */
  function UpdateWhere<T, E>(items: seq<T>, idOf: T -> string, id: string, apply: (T, E) -> T, edit: E): (r: seq<T>)
    ensures |r| == |items|
    ensures forall i :: 0 <= i < |items| && idOf(items[i]) != id ==> r[i] == items[i]
    ensures forall i :: 0 <= i < |items| && idOf(items[i]) == id ==> r[i] == apply(items[i], edit)
    ensures (forall i :: 0 <= i < |items| ==> idOf(items[i]) != id) ==> r == items
  {
    if |items| == 0 then []
    else
      [if idOf(items[0]) == id then apply(items[0], edit) else items[0]]
      + UpdateWhere(items[1..], idOf, id, apply, edit)
  }

  /** The items whose id is not `id`. */
  function RemoveWhere<T>(items: seq<T>, idOf: T -> string, id: string): (r: seq<T>)
    ensures |r| <= |items|
    ensures forall i :: 0 <= i < |r| ==> r[i] in items && idOf(r[i]) != id
    ensures forall i :: 0 <= i < |items| && idOf(items[i]) != id ==> items[i] in r
  {
    if |items| == 0 then []
    else if idOf(items[0]) == id then RemoveWhere(items[1..], idOf, id)
    else [items[0]] + RemoveWhere(items[1..], idOf, id)
  }

  /** Removing distributes over concatenation: the items kept from a prefix
      stay ahead of those kept from the rest, so relative order is
      preserved. */
  lemma {:induction false} RemoveConcat<T>(a: seq<T>, b: seq<T>, idOf: T -> string, id: string)
    ensures RemoveWhere(a + b, idOf, id) == RemoveWhere(a, idOf, id) + RemoveWhere(b, idOf, id)
  {
    if |a| == 0 {
      assert a + b == b;
    } else {
      assert (a + b)[1..] == a[1..] + b;
      RemoveConcat(a[1..], b, idOf, id);
    }
  }

  /** A list with no item of that id is left as it is. */
  lemma {:induction false} RemoveAbsent<T>(items: seq<T>, idOf: T -> string, id: string)
    requires forall i :: 0 <= i < |items| ==> idOf(items[i]) != id
    ensures RemoveWhere(items, idOf, id) == items
  {
    if |items| > 0 {
      RemoveAbsent(items[1..], idOf, id);
      assert [items[0]] + items[1..] == items;
    }
  }

  /** Every item of the given id goes; the number removed is the number of
      such items. */
  lemma {:induction false} RemoveCount<T>(items: seq<T>, idOf: T -> string, id: string)
    ensures |RemoveWhere(items, idOf, id)| == |items| - Matching(items, idOf, id)
  {
    if |items| > 0 {
      RemoveCount(items[1..], idOf, id);
    }
  }

  /** The number of items whose id is `id`. */
  function Matching<T>(items: seq<T>, idOf: T -> string, id: string): nat
  {
    if |items| == 0 then 0
    else (if idOf(items[0]) == id then 1 else 0) + Matching(items[1..], idOf, id)
  }
}

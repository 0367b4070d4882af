/** The list operations the two record slices share: `findIndex` by id, and replacing the first item
    with a given id. Items are identified by a key function (`item => item.id`). */
module ItemList {

  /** `items.findIndex(item => key(item) == id)`: the first index whose item has key `id`, or -1. */
  method FindIndex<T>(items: seq<T>, id: string, key: T -> string) returns (index: int)
    ensures -1 <= index < |items|
    ensures index == -1 <==> forall j :: 0 <= j < |items| ==> key(items[j]) != id
    ensures index != -1 ==> key(items[index]) == id && forall j :: 0 <= j < index ==> key(items[j]) != id
  {
    index := 0;
    while index < |items|
      invariant 0 <= index <= |items|
      invariant forall j :: 0 <= j < index ==> key(items[j]) != id
    {
      if key(items[index]) == id {
        return;
      }
      index := index + 1;
    }
    index := -1;
  }

  /** The first index whose item has key `id`, `|items|` when there is none. */
  function FirstWithKey<T>(items: seq<T>, id: string, key: T -> string): (k: nat)
    ensures k <= |items|
    ensures k < |items| ==> key(items[k]) == id
    ensures forall j :: 0 <= j < k ==> key(items[j]) != id
  {
    if items == [] then 0
    else if key(items[0]) == id then 0
    else 1 + FirstWithKey(items[1..], id, key)
  }

  /** The list with its first item whose key equals `x`'s replaced by `x`; unchanged when there is none. */
  function ReplaceFirst<T>(items: seq<T>, x: T, key: T -> string): (r: seq<T>)
    ensures |r| == |items|
    ensures var k := FirstWithKey(items, key(x), key);
            forall j :: 0 <= j < |items| ==> r[j] == if j == k then x else items[j]
  {
    if items == [] then []
    else if key(items[0]) == key(x) then [x] + items[1..]
    else [items[0]] + ReplaceFirst(items[1..], x, key)
  }

  /** With no item carrying `x`'s key, replacing leaves the list as it was. */
  lemma ReplaceWithoutMatch<T>(items: seq<T>, x: T, key: T -> string)
    requires forall j :: 0 <= j < |items| ==> key(items[j]) != key(x)
    ensures ReplaceFirst(items, x, key) == items
  {
    var r := ReplaceFirst(items, x, key);
    assert FirstWithKey(items, key(x), key) == |items|;
    assert forall j :: 0 <= j < |items| ==> r[j] == items[j];
  }

  /** Only the first matching item is replaced: later items with the same key keep their value. */
  lemma ReplaceOnlyFirst<T>(items: seq<T>, x: T, key: T -> string, i: nat, j: nat)
    requires i < j < |items| && key(items[i]) == key(x) && key(items[j]) == key(x)
    ensures ReplaceFirst(items, x, key)[j] == items[j]
    ensures ReplaceFirst(items, x, key)[FirstWithKey(items, key(x), key)] == x
  {
  }
}

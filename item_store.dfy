/**
  The in-memory item store behind the /items routes: a list of JSON objects
  addressed by position. Positions are not stable identities: deleting an
  item shifts every later item down by one.
*/
module ItemStore {
  import opened Json

  /** What a route answers: an item with its status code, or an error. */
  datatype Reply =
    | Found(status: nat, item: Item)
    | Error(status: nat, message: string)

  /** The answer to an index that is not in the list (IndexError). */
  const ItemNotFound: Reply := Error(404, "Item not found")

  /** The object `item.update(updates)` leaves behind. */
  function Merge(item: Item, updates: Item): (r: Item)
    ensures r.Keys == item.Keys + updates.Keys
    ensures forall k :: k in updates ==> r[k] == updates[k]
    ensures forall k :: k in item && k !in updates ==> r[k] == item[k]
  {
    item + updates
  }

  /** The list `items.pop(i)` leaves behind: later items move down by one. */
  function Without(s: seq<Item>, i: nat): (r: seq<Item>)
    requires i < |s|
    ensures |r| == |s| - 1
    ensures forall j :: 0 <= j < i ==> r[j] == s[j]
    ensures forall j :: i <= j < |r| ==> r[j] == s[j + 1]
    ensures multiset(r) + multiset{s[i]} == multiset(s)
  {
    assert s == s[..i] + [s[i]] + s[i + 1..];
    s[..i] + s[i + 1..]
  }

  /** Deleting the last item undoes adding it. */
  lemma DeleteUndoesAdd(s: seq<Item>, x: Item)
    ensures Without(s + [x], |s|) == s
  {
    assert (s + [x])[..|s|] == s;
  }

  /** Merging an item twice with the same updates changes nothing the second time. */
  lemma MergeIdempotent(item: Item, updates: Item)
    ensures Merge(Merge(item, updates), updates) == Merge(item, updates)
  {
  }

  class Store {
    /** The module-level `items` list. */
    var items: seq<Item>

    constructor ()
      ensures items == []
    {
      items := [];
    }

    /** GET /items: the whole list, in insertion order. */
    method GetItems() returns (all: seq<Item>, status: nat)
      ensures all == items && status == 200
    {
      all, status := items, 200;
    }

    /** POST /items: append the request body. */
    method AddItem(newItem: Item) returns (r: Reply)
      modifies this
      ensures items == old(items) + [newItem]
      ensures r == Found(201, newItem)
    {
      items := items + [newItem];
      r := Found(201, newItem);
    }

    /** GET /items/<index>. */
    method GetItem(index: nat) returns (r: Reply)
      ensures index < |items| ==> r == Found(200, items[index])
      ensures index >= |items| ==> r == ItemNotFound
    {
      if index < |items| {
        r := Found(200, items[index]);
      } else {
        r := ItemNotFound;
      }
    }

    /** PUT /items/<index>: merge the request body into the item in place. */
    method UpdateItem(index: nat, updates: Item) returns (r: Reply)
      modifies this
      ensures index < |old(items)| ==>
                && |items| == |old(items)|
                && items[index] == Merge(old(items)[index], updates)
                && (forall j :: 0 <= j < |items| && j != index ==> items[j] == old(items)[j])
                && r == Found(200, items[index])
      ensures index >= |old(items)| ==> items == old(items) && r == ItemNotFound
    {
      if index < |items| {
        var item := Merge(items[index], updates);
        items := items[index := item];
        r := Found(200, item);
      } else {
        r := ItemNotFound;
      }
    }

    /** DELETE /items/<index>: remove the item and answer with it. */
    method DeleteItem(index: nat) returns (r: Reply)
      modifies this
      ensures index < |old(items)| ==>
                items == Without(old(items), index) && r == Found(204, old(items)[index])
      ensures index >= |old(items)| ==> items == old(items) && r == ItemNotFound
    {
      if index < |items| {
        var deleted := items[index];
        items := Without(items, index);
        r := Found(204, deleted);
      } else {
        r := ItemNotFound;
      }
    }
  }

  /** A client's view: what the routes guarantee one after another. */
  method Session(a: Item, b: Item, u: Item)
  {
    var store := new Store();
    var r := store.AddItem(a);
    r := store.AddItem(b);
    var all, status := store.GetItems();
    assert all == [a, b];
    r := store.DeleteItem(0);
    assert r == Found(204, a);
    r := store.GetItem(0);
    assert r == Found(200, b);
    r := store.GetItem(1);
    assert r == ItemNotFound;
    r := store.UpdateItem(0, u);
    assert r == Found(200, Merge(b, u));
    r := store.UpdateItem(5, u);
    assert r == ItemNotFound && store.items == [Merge(b, u)];
  }
}

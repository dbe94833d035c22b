/**
 * The in-memory item CRUD of app/routers/items.py. `items_db` is a Python dict from item id
 * to item record; a dict remembers the order in which its keys were first inserted, which
 * is the order `items_db.values()` lists them. The store therefore keeps that key order
 * beside the map. `get_next_item_id` is not part of this model: its result comes in as a
 * parameter that is not already a key.
 */
module Items {
  import opened Wrappers

  /** The request body of create and update (`ItemCreate`). */
  datatype ItemCreate = ItemCreate(name: string, description: Option<string>)

  /** A stored and returned item (`Item`): the request fields and the id. */
  datatype Item = Item(id: int, name: string, description: Option<string>)

  /** `{"id": item_id, **item.dict()}`. */
  function Stored(itemId: int, item: ItemCreate): Item {
    Item(itemId, item.name, item.description)
  }

  const NotFound := HttpError(404, "Item not found")

  /** Each key once in the key order, the key order covering the map, every record under its own id. */
  ghost predicate Consistent(order: seq<int>, items: map<int, Item>) {
    && Distinct(order)
    && (forall k :: k in order <==> k in items)
    && (forall k | k in items :: items[k].id == k)
  }

  /** No key twice. */
  predicate Distinct(order: seq<int>) {
    forall i, j :: 0 <= i < j < |order| ==> order[i] != order[j]
  }

  /** Every key of the key order is in the map. */
  predicate Covered(order: seq<int>, items: map<int, Item>) {
    forall i :: 0 <= i < |order| ==> order[i] in items
  }

  /** `items_db.values()`: the records in key order. */
  function Values(order: seq<int>, items: map<int, Item>): (r: seq<Item>)
    requires Covered(order, items)
    ensures |r| == |order|
    ensures forall i :: 0 <= i < |order| ==> r[i] == items[order[i]]
  {
    if order == [] then [] else [items[order[0]]] + Values(order[1..], items)
  }

  /** The key order after `items_db.pop(k)`. */
  function Remove(order: seq<int>, k: int): (r: seq<int>)
    ensures forall x :: x in r <==> x in order && x != k
  {
    if order == [] then []
    else if order[0] == k then Remove(order[1..], k)
    else [order[0]] + Remove(order[1..], k)
  }

  /** The records other than the one with the given id, in their order. */
  function WithoutId(xs: seq<Item>, k: int): seq<Item> {
    if xs == [] then []
    else if xs[0].id == k then WithoutId(xs[1..], k)
    else [xs[0]] + WithoutId(xs[1..], k)
  }

  /** The listing holds exactly the stored records: each one, and nothing not stored under its id. */
  lemma ValuesExact(order: seq<int>, items: map<int, Item>)
    requires Consistent(order, items)
    ensures forall k | k in items :: items[k] in Values(order, items)
    ensures forall x | x in Values(order, items) :: x.id in items && items[x.id] == x
  {
    var r := Values(order, items);
    forall k | k in items ensures items[k] in r {
      var i :| 0 <= i < |order| && order[i] == k;
      assert r[i] == items[k];
    }
  }

  /** Inserting a fresh key lists its record last and leaves the others as they were. */
  lemma ValuesInsert(order: seq<int>, items: map<int, Item>, k: int, x: Item)
    requires Covered(order, items)
    requires k !in order
    ensures Values(order + [k], items[k := x]) == Values(order, items) + [x]
  {
    var r := Values(order + [k], items[k := x]);
    forall i | 0 <= i < |order| ensures r[i] == Values(order, items)[i] {
      assert (order + [k])[i] == order[i];
    }
  }

  /** Overwriting a present key changes its record in place and nothing else of the listing. */
  lemma ValuesOverwrite(order: seq<int>, items: map<int, Item>, k: int, x: Item)
    requires Consistent(order, items) && k in items
    ensures var before, after := Values(order, items), Values(order, items[k := x]);
      && |after| == |before|
      && forall i :: 0 <= i < |before| ==> after[i] == if before[i].id == k then x else before[i]
  {
  }

  /** Popping a key lists the other records in their order. */
  lemma {:induction false} ValuesRemove(order: seq<int>, items: map<int, Item>, k: int)
    requires Covered(order, items)
    requires forall j | j in items :: items[j].id == j
    ensures Covered(Remove(order, k), items - {k})
    ensures Values(Remove(order, k), items - {k}) == WithoutId(Values(order, items), k)
  {
    if order != [] {
      var tail := order[1..];
      assert Covered(tail, items);
      ValuesRemove(tail, items, k);
      var v := Values(order, items);
      assert v == [items[order[0]]] + Values(tail, items);
      assert v[1..] == Values(tail, items);
      if order[0] != k {
        var r := Remove(order, k);
        assert r == [order[0]] + Remove(tail, k);
        assert r[1..] == Remove(tail, k);
        assert Values(r, items - {k}) == [items[order[0]]] + Values(Remove(tail, k), items - {k});
      }
    }
  }

  /** Popping a key keeps the key order free of repeats. */
  lemma {:induction false} RemoveDistinct(order: seq<int>, k: int)
    requires Distinct(order)
    ensures Distinct(Remove(order, k))
  {
    if order != [] {
      var tail := order[1..];
      assert Distinct(tail);
      RemoveDistinct(tail, k);
      if order[0] != k {
        var rest := Remove(tail, k);
        assert order[0] !in tail;
        assert order[0] !in rest;
        var r := [order[0]] + rest;
        assert r == Remove(order, k);
        forall i, j | 0 <= i < j < |r| ensures r[i] != r[j] {
          if i == 0 {
            assert r[j] == rest[j - 1] && rest[j - 1] in rest;
          } else {
            assert r[i] == rest[i - 1] && r[j] == rest[j - 1];
          }
        }
      }
    }
  }

  /** `items_db` with its key order: the dict the router mutates. */
  class ItemStore {
    var order: seq<int>
    var items: map<int, Item>

    ghost predicate Valid()
      reads this
    {
      Consistent(order, items)
    }

    constructor()
      ensures Valid() && order == [] && items == map[]
    {
      order := [];
      items := map[];
    }

    /** `create_item(item)` with `itemId` from `get_next_item_id()`. */
    method CreateItem(itemId: int, item: ItemCreate) returns (r: Item)
      requires Valid() && itemId !in items
      modifies this
      ensures Valid()
      ensures r == Stored(itemId, item)
      ensures items == old(items)[itemId := r] && order == old(order) + [itemId]
      ensures ReadItems() == old(ReadItems()) + [r]
    {
      r := Stored(itemId, item);
      ValuesInsert(order, items, itemId, r);
      items := items[itemId := r];
      order := order + [itemId];
    }

    /** `read_items()`: every stored record once, in insertion order. */
    function ReadItems(): (r: seq<Item>)
      reads this
      requires Valid()
      ensures forall k | k in items :: items[k] in r
      ensures forall x | x in r :: x.id in items && items[x.id] == x
      ensures |r| == |order| && forall i, j :: 0 <= i < j < |r| ==> r[i].id != r[j].id
    {
      ValuesExact(order, items);
      Values(order, items)
    }

    /** `read_item(item_id)`. */
    function ReadItem(itemId: int): (r: Result<Item, HttpError>)
      reads this
      ensures r.Ok? <==> itemId in items
      ensures r.Ok? ==> r.value == items[itemId]
      ensures r.Err? ==> r.error == NotFound
    {
      if itemId !in items then Err(NotFound) else Ok(items[itemId])
    }

    /** `update_item(item_id, item)`: a 404 for an unknown id, else the record is replaced. */
    method UpdateItem(itemId: int, item: ItemCreate) returns (r: Result<Item, HttpError>)
      requires Valid()
      modifies this
      ensures Valid() && order == old(order)
      ensures itemId !in old(items) ==> r == Err(NotFound) && items == old(items)
      ensures itemId in old(items) ==>
        && r == Ok(Stored(itemId, item))
        && items == old(items)[itemId := Stored(itemId, item)]
        && |ReadItems()| == |old(ReadItems())|
        && forall i :: 0 <= i < |ReadItems()| ==>
             ReadItems()[i] == if old(ReadItems())[i].id == itemId then Stored(itemId, item) else old(ReadItems())[i]
    {
      if itemId !in items {
        return Err(NotFound);
      }
      var x := Stored(itemId, item);
      ValuesOverwrite(order, items, itemId, x);
      items := items[itemId := x];
      r := Ok(x);
    }

    /** `delete_item(item_id)`: a 404 for an unknown id, else the record is popped and returned. */
    method DeleteItem(itemId: int) returns (r: Result<Item, HttpError>)
      requires Valid()
      modifies this
      ensures Valid()
      ensures itemId !in old(items) ==> r == Err(NotFound) && items == old(items) && order == old(order)
      ensures itemId in old(items) ==>
        && r == Ok(old(items)[itemId])
        && items == old(items) - {itemId}
        && order == Remove(old(order), itemId)
        && ReadItems() == WithoutId(old(ReadItems()), itemId)
    {
      if itemId !in items {
        return Err(NotFound);
      }
      r := Ok(items[itemId]);
      RemoveDistinct(order, itemId);
      ValuesRemove(order, items, itemId);
      items := items - {itemId};
      order := Remove(order, itemId);
    }
  }
}

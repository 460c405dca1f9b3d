/**
 * The example item routes: an in-memory list of items addressed by position, with the
 * production guard on creation. Prices are real numbers.
 */
module ItemStore {
  import opened Wrappers
  import opened AppSettings

  /** `ItemCreate`: what a caller sends. */
  datatype ItemCreate = ItemCreate(name: string, description: Option<string>, price: real, tax: Option<real>)

  /** `ItemResponse`: a stored item, with its id and total price. */
  datatype Item = Item(id: int, name: string, description: Option<string>, price: real, tax: Option<real>, totalPrice: real)

  /** A rejected call: the HTTP status and its detail. */
  datatype HttpError = HttpError(code: int, detail: string)

  const NotFound: HttpError := HttpError(404, "Item not found")
  const NoApiKey: HttpError := HttpError(500, "External API key not configured for production")

  /** `price + (tax or 0)`: the total with the tax when there is one. */
  function TotalPrice(item: ItemCreate): (t: real)
    ensures item.tax.None? ==> t == item.price
    ensures item.tax.Some? ==> t - item.price == item.tax.value
  {
    item.price + (if item.tax.Some? then item.tax.value else 0.0)
  }

  /** The stored form of `item` under `id`. */
  function MakeItem(id: int, item: ItemCreate): (r: Item)
    ensures r.id == id && r.name == item.name && r.description == item.description
    ensures r.price == item.price && r.tax == item.tax
    ensures r.totalPrice == TotalPrice(item)
  {
    Item(id, item.name, item.description, item.price, item.tax, TotalPrice(item))
  }

  /** `0 <= item_id < len(items_db)`: the index checks of get, update and delete. */
  predicate InRange(items: seq<Item>, itemId: int) {
    0 <= itemId < |items|
  }

  /** Creation is refused in production when no external API key is configured. */
  predicate CreateRefused(settings: Settings) {
    IsProduction(settings) && (settings.externalApiKey.None? || settings.externalApiKey.value == "")
  }

  /** Every item's id is its position, as it is while nothing has been deleted. */
  predicate IdsArePositions(items: seq<Item>) {
    forall i :: 0 <= i < |items| ==> items[i].id == i
  }

  /** The list after `delete_item`: the item at `itemId` removed, the later ones shifted down. */
  function Remove(items: seq<Item>, itemId: nat): (r: seq<Item>)
    requires itemId < |items|
    ensures |r| == |items| - 1
    ensures forall i :: 0 <= i < itemId ==> r[i] == items[i]
    ensures forall i :: itemId <= i < |r| ==> r[i] == items[i + 1]
  {
    items[..itemId] + items[itemId + 1..]
  }

  /** Creating keeps ids equal to positions; so does updating. */
  lemma CreateKeepsIds(items: seq<Item>, item: ItemCreate)
    requires IdsArePositions(items)
    ensures IdsArePositions(items + [MakeItem(|items|, item)])
  {
  }

  lemma UpdateKeepsIds(items: seq<Item>, itemId: nat, item: ItemCreate)
    requires IdsArePositions(items) && itemId < |items|
    ensures IdsArePositions(items[itemId := MakeItem(itemId, item)])
  {
  }

  /**
   * Ids can repeat after a delete: create twice, delete the first, create again, and both
   * remaining items have id 1.
   */
  lemma IdsRepeatAfterDelete(a: ItemCreate, b: ItemCreate, c: ItemCreate)
    ensures var two := [MakeItem(0, a)] + [MakeItem(1, b)];
      var one := Remove(two, 0);
      var again := one + [MakeItem(|one|, c)];
      |again| == 2 && again[0].id == 1 && again[1].id == 1 && !IdsArePositions(again)
  {
    var two := [MakeItem(0, a)] + [MakeItem(1, b)];
    var one := Remove(two, 0);
    assert one == [MakeItem(1, b)];
  }

  /** The module-level `items_db` list. */
  class ItemRoutes {
    var items: seq<Item>

    constructor ()
      ensures items == []
    {
      items := [];
    }

    /** `get_items`: the whole list, in order; each entry is what `get_item` returns at its position. */
    function GetItems(): (r: seq<Item>)
      reads this
      ensures |r| == |items|
      ensures forall i :: 0 <= i < |r| ==> GetItem(i) == Ok(r[i])
    {
      items
    }

    /** `get_item`: 404 outside the list, otherwise the item at that position. */
    function GetItem(itemId: int): (r: Result<Item, HttpError>)
      reads this
      ensures r.Err? <==> !InRange(items, itemId)
      ensures r.Err? ==> r.error == NotFound
      ensures r.Ok? ==> r.value == items[itemId]
    {
      if itemId < 0 || itemId >= |items| then Err(NotFound) else Ok(items[itemId])
    }

    /**
     * `create_item`: refused with 500 in production without an external API key; otherwise the
     * item is appended with id = the old length, and returned.
     */
    method CreateItem(item: ItemCreate, settings: Settings) returns (r: Result<Item, HttpError>)
      modifies this
      ensures CreateRefused(settings) ==> r == Err(NoApiKey) && items == old(items)
      ensures !CreateRefused(settings) ==>
        r == Ok(MakeItem(|old(items)|, item)) && items == old(items) + [MakeItem(|old(items)|, item)]
    {
      if IsProduction(settings) && (settings.externalApiKey.None? || settings.externalApiKey.value == "") {
        return Err(NoApiKey);
      }
      var newItem := MakeItem(|items|, item);
      items := items + [newItem];
      r := Ok(newItem);
    }

    /** `update_item`: 404 outside the list; otherwise only that position is replaced, keeping its id. */
    method UpdateItem(itemId: int, item: ItemCreate) returns (r: Result<Item, HttpError>)
      modifies this
      ensures !InRange(old(items), itemId) ==> r == Err(NotFound) && items == old(items)
      ensures InRange(old(items), itemId) ==>
        r == Ok(MakeItem(itemId, item)) && items == old(items)[itemId := MakeItem(itemId, item)]
    {
      if itemId < 0 || itemId >= |items| {
        return Err(NotFound);
      }
      var updated := MakeItem(itemId, item);
      items := items[itemId := updated];
      r := Ok(updated);
    }

    /** `delete_item`: 404 outside the list; otherwise the item is popped and returned. */
    method DeleteItem(itemId: int) returns (r: Result<Item, HttpError>)
      modifies this
      ensures !InRange(old(items), itemId) ==> r == Err(NotFound) && items == old(items)
      ensures InRange(old(items), itemId) ==> r == Ok(old(items)[itemId]) && items == Remove(old(items), itemId)
    {
      if itemId < 0 || itemId >= |items| {
        return Err(NotFound);
      }
      r := Ok(items[itemId]);
      items := items[..itemId] + items[itemId + 1..];
    }
  }
}

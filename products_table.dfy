/** The table of a sale's lines with its add, subtract and delete buttons: each button sends one
    request for the line to the sale's item route and, when that succeeds, revalidates the
    sale's cached data. */
module ProductsTable {
  import opened Js
  import opened Http
  import opened Cart

  /** A request to `/api/v1/sales/<saleId>/items/<itemId>`. */
  datatype ItemRequest =
    | PutQuantity(saleId: string, itemId: string, quantity: int)
    | DeleteItem(saleId: string, itemId: string)

  /** A cache key handed to `mutate`. */
  datatype CacheKey = SaleKey(saleId: string)

  /** The `+` button asks for one more unit than the row shows. */
  function AddRequest(saleId: string, item: SaleItem): (r: ItemRequest)
    ensures r.PutQuantity? && r.saleId == saleId && r.itemId == item.id
    ensures r.quantity == item.quantity + 1
  {
    PutQuantity(saleId, item.id, item.quantity + 1)
  }

  /** The `-` button deletes a line of one unit (or less) and otherwise asks for one unit fewer,
      so it never asks for a quantity below 1. */
  function SubtractRequest(saleId: string, item: SaleItem): (r: ItemRequest)
    ensures r.saleId == saleId && r.itemId == item.id
    ensures r.DeleteItem? <==> item.quantity <= 1
    ensures r.PutQuantity? ==> r.quantity == item.quantity - 1 && r.quantity >= 1
  {
    if item.quantity <= 1 then DeleteItem(saleId, item.id)
    else PutQuantity(saleId, item.id, item.quantity - 1)
  }

  /** The caches revalidated after a request with the given outcome. */
  function RevalidationsAfter(saleId: string, response: FetchResult): (keys: seq<CacheKey>)
    ensures Ok(response) <==> keys == [SaleKey(saleId)]
    ensures !Ok(response) <==> keys == []
  {
    if Ok(response) then [SaleKey(saleId)] else []
  }

  // ---------------------------------------------------------------------------
  // What the requests mean for the sale's lines

  /** A line id occurs at most once. */
  predicate UniqueIds(items: seq<SaleItem>) {
    forall i, j :: 0 <= i < j < |items| ==> items[i].id != items[j].id
  }

  /** What the item route does with a request: set the line's quantity, or delete the line. */
  function Apply(items: seq<SaleItem>, r: ItemRequest): seq<SaleItem> {
    match r
    case PutQuantity(_, itemId, q) =>
      seq(|items|, j requires 0 <= j < |items| =>
        if items[j].id == itemId then items[j].(quantity := q) else items[j])
    case DeleteItem(_, itemId) => AfterRemove(items, itemId)
  }

  /** On lines with unique ids, filtering out a present id is splicing it out. */
  lemma {:induction false} RemovePresentIsSplice(items: seq<SaleItem>, i: int)
    requires UniqueIds(items) && 0 <= i < |items|
    ensures AfterRemove(items, items[i].id) == items[..i] + items[i + 1..]
  {
    var id := items[i].id;
    var pre, post := items[..i], items[i + 1..];
    assert items == (pre + [items[i]]) + post;
    assert AfterRemove(items, id) == AfterRemove(pre, id) + AfterRemove([items[i]], id) + AfterRemove(post, id) by {
      RemoveDistributes(pre + [items[i]], post, id);
      RemoveDistributes(pre, [items[i]], id);
    }
    assert AfterRemove([items[i]], id) == [] by {
      assert [items[i]][..0] == [];
    }
    assert AfterRemove(pre, id) == pre by {
      assert forall j :: 0 <= j < |pre| ==> pre[j] == items[j];
      RemoveLaw(pre, id);
    }
    assert AfterRemove(post, id) == post by {
      assert forall j :: 0 <= j < |post| ==> post[j] == items[i + 1 + j];
      RemoveLaw(post, id);
    }
  }

  /** The table and the cart store agree: for a line of the sale, the `+` button's request does
      to the lines what increaseItemQuantity does, and the `-` button's request what
      reduceItemFromSale does. */
  lemma TableAgreesWithStore(saleId: string, items: seq<SaleItem>, i: int)
    requires UniqueIds(items) && 0 <= i < |items|
    ensures Apply(items, AddRequest(saleId, items[i])) == AfterIncrease(items, items[i].id)
    ensures Apply(items, SubtractRequest(saleId, items[i])) == AfterReduce(items, items[i].id)
  {
    var id := items[i].id;
    assert IndexOfItem(items, id) == i;
    if items[i].quantity <= 1 {
      RemovePresentIsSplice(items, i);
    }
  }

  /** Subtracting after adding asks for the quantity the row started from. */
  lemma SubtractUndoesAdd(saleId: string, item: SaleItem)
    requires item.quantity >= 1
    ensures var added := AddRequest(saleId, item);
      SubtractRequest(saleId, item.(quantity := added.quantity))
        == PutQuantity(saleId, item.id, item.quantity)
  {
  }

  /** After the `+` request the row's displayed subtotal grows by its unit price, and after a
      `-` request that keeps the row, it falls by its unit price. */
  lemma DisplayedSubtotalSteps(saleId: string, item: SaleItem)
    ensures Subtotal(item.(quantity := AddRequest(saleId, item).quantity)) == Subtotal(item) + UnitPrice(item)
    ensures var r := SubtractRequest(saleId, item);
      r.PutQuantity? ==> Subtotal(item.(quantity := r.quantity)) == Subtotal(item) - UnitPrice(item)
  {
    assert UnitPrice(item) * (item.quantity + 1) == UnitPrice(item) * item.quantity + UnitPrice(item);
    assert UnitPrice(item) * (item.quantity - 1) == UnitPrice(item) * item.quantity - UnitPrice(item);
  }

  // ---------------------------------------------------------------------------
  // The component

  /** The table of one sale. `sent` and `revalidated` record the requests made and the cache
      keys revalidated; the network's answer to each request is a parameter. */
  class ProductsTableComponent {
    const saleId: string
    var loading: bool
    var sent: seq<ItemRequest>
    var revalidated: seq<CacheKey>

    constructor (initialSaleId: string)
      ensures saleId == initialSaleId && !loading && sent == [] && revalidated == []
    {
      saleId, loading, sent, revalidated := initialSaleId, false, [], [];
    }

    /** The buttons are enabled while no request is in flight. */
    predicate ButtonsEnabled()
      reads this
    {
      !loading
    }

    /** One request under `setLoading(true) … finally setLoading(false)`. */
    method Send(request: ItemRequest, response: FetchResult)
      modifies this
      ensures !loading
      ensures sent == old(sent) + [request]
      ensures revalidated == old(revalidated) + RevalidationsAfter(saleId, response)
    {
      loading := true;
      sent := sent + [request];
      if Ok(response) {
        revalidated := revalidated + [SaleKey(saleId)];
      }
      loading := false;
    }

    method DeleteItemFromSale(itemId: string, response: FetchResult)
      modifies this
      ensures !loading
      ensures sent == old(sent) + [DeleteItem(saleId, itemId)]
      ensures revalidated == old(revalidated) + RevalidationsAfter(saleId, response)
    {
      Send(DeleteItem(saleId, itemId), response);
    }

    method AddItemsToSale(item: SaleItem, response: FetchResult)
      modifies this
      ensures !loading
      ensures sent == old(sent) + [AddRequest(saleId, item)]
      ensures revalidated == old(revalidated) + RevalidationsAfter(saleId, response)
    {
      Send(PutQuantity(saleId, item.id, item.quantity + 1), response);
    }

    method SubstractItemsToSale(item: SaleItem, response: FetchResult)
      modifies this
      ensures !loading
      ensures sent == old(sent) + [SubtractRequest(saleId, item)]
      ensures revalidated == old(revalidated) + RevalidationsAfter(saleId, response)
    {
      loading := true;
      if item.quantity <= 1 {
        DeleteItemFromSale(item.id, response);
        return;
      }
      Send(PutQuantity(saleId, item.id, item.quantity - 1), response);
    }
  }
}

/** The client-side sale in progress: a list of line items and a running total that every
    action recomputes as the sum of unit price times quantity. */
module Cart {
  import opened Js
  import opened Schema

  /** A line item; `product` is the product the item was created from, when it is known. */
  datatype SaleItem = SaleItem(
    id: string,
    saleId: string,
    productId: string,
    quantity: int,
    product: Option<Product>)

  /** `item.product?.price || 0` */
  function UnitPrice(item: SaleItem): int {
    if item.product.Some? then item.product.value.price else 0
  }

  /** The line's subtotal, also what the products table displays per row. */
  function Subtotal(item: SaleItem): int {
    UnitPrice(item) * item.quantity
  }

  /** `items.reduce((acc, item) => acc + f(item), 0)` */
  function SumOf(items: seq<SaleItem>, f: SaleItem -> int): int {
    if items == [] then 0 else SumOf(items[..|items| - 1], f) + f(items[|items| - 1])
  }

  /** calculateTotal: the sum of the line subtotals. */
  function CalculateTotal(items: seq<SaleItem>): (total: int)
    ensures (forall i :: 0 <= i < |items| ==> Subtotal(items[i]) >= 0) ==> total >= 0
  {
    SumNonNegative(items, Subtotal);
    SumOf(items, Subtotal)
  }

  /** How many units of product `pid` the items hold. */
  function QuantityOf(items: seq<SaleItem>, pid: string): int {
    SumOf(items, UnitsOfProduct(pid))
  }

  /** How many units the items hold in all. */
  function TotalQuantity(items: seq<SaleItem>): int {
    SumOf(items, Quantity)
  }

  function Quantity(item: SaleItem): int {
    item.quantity
  }

  /** A line's units when it is for product `pid`, else 0. */
  function UnitsOfProduct(pid: string): SaleItem -> int {
    (item: SaleItem) => if item.productId == pid then item.quantity else 0
  }

  // ---------------------------------------------------------------------------
  // Array.prototype.findIndex

  function FindIndex(items: seq<SaleItem>, matches: SaleItem -> bool): (r: int)
    ensures -1 <= r < |items|
    ensures r == -1 <==> forall j :: 0 <= j < |items| ==> !matches(items[j])
    ensures 0 <= r ==> matches(items[r]) && forall j :: 0 <= j < r ==> !matches(items[j])
  {
    if items == [] then -1
    else if matches(items[0]) then 0
    else
      var k := FindIndex(items[1..], matches);
      assert forall j :: 1 <= j < |items| ==> items[j] == items[1..][j - 1];
      if k == -1 then -1 else k + 1
  }

  function IndexOfProduct(items: seq<SaleItem>, pid: string): (r: int)
    ensures -1 <= r < |items|
    ensures r == -1 <==> forall j :: 0 <= j < |items| ==> items[j].productId != pid
    ensures 0 <= r ==> items[r].productId == pid && forall j :: 0 <= j < r ==> items[j].productId != pid
  {
    FindIndex(items, (item: SaleItem) => item.productId == pid)
  }

  function IndexOfItem(items: seq<SaleItem>, itemId: string): (r: int)
    ensures -1 <= r < |items|
    ensures r == -1 <==> forall j :: 0 <= j < |items| ==> items[j].id != itemId
    ensures 0 <= r ==> items[r].id == itemId && forall j :: 0 <= j < r ==> items[j].id != itemId
  {
    FindIndex(items, (item: SaleItem) => item.id == itemId)
  }

  // ---------------------------------------------------------------------------
  // What each store action makes of the items

  /** The item added for a product scanned for the first time; its id is a temporary
      "temp-" id whose random part is a parameter. */
  function NewItem(product: Product, randomSuffix: string): SaleItem {
    SaleItem("temp-" + randomSuffix, "", product.id, 1, Some(product))
  }

  function AfterAdd(items: seq<SaleItem>, product: Product, randomSuffix: string): seq<SaleItem> {
    var i := IndexOfProduct(items, product.id);
    if i != -1 then items[i := items[i].(quantity := items[i].quantity + 1)]
    else items + [NewItem(product, randomSuffix)]
  }

  function AfterIncrease(items: seq<SaleItem>, itemId: string): seq<SaleItem> {
    var i := IndexOfItem(items, itemId);
    if i != -1 then items[i := items[i].(quantity := items[i].quantity + 1)] else items
  }

  function AfterReduce(items: seq<SaleItem>, itemId: string): seq<SaleItem> {
    var i := IndexOfItem(items, itemId);
    if i == -1 then items
    else if items[i].quantity > 1 then items[i := items[i].(quantity := items[i].quantity - 1)]
    else items[..i] + items[i + 1..]
  }

  /** `items.filter(item => item.id !== itemId)` */
  function AfterRemove(items: seq<SaleItem>, itemId: string): seq<SaleItem> {
    if items == [] then []
    else
      var rest := AfterRemove(items[..|items| - 1], itemId);
      if items[|items| - 1].id != itemId then rest + [items[|items| - 1]] else rest
  }

  /** Scanning the same product `n` times into `items`. */
  function Scans(items: seq<SaleItem>, product: Product, randomSuffix: string, n: nat): seq<SaleItem> {
    if n == 0 then items else AfterAdd(Scans(items, product, randomSuffix, n - 1), product, randomSuffix)
  }

  // ---------------------------------------------------------------------------
  // The store's invariant

  predicate UniqueProducts(items: seq<SaleItem>) {
    forall i, j :: 0 <= i < j < |items| ==> items[i].productId != items[j].productId
  }

  predicate PositiveQuantities(items: seq<SaleItem>) {
    forall i :: 0 <= i < |items| ==> items[i].quantity >= 1
  }

  predicate WellFormed(items: seq<SaleItem>) {
    UniqueProducts(items) && PositiveQuantities(items)
  }

  // ---------------------------------------------------------------------------
  // Sums over the items

  lemma {:induction false} SumNonNegative(items: seq<SaleItem>, f: SaleItem -> int)
    ensures (forall i :: 0 <= i < |items| ==> f(items[i]) >= 0) ==> SumOf(items, f) >= 0
  {
    if items != [] && forall i :: 0 <= i < |items| ==> f(items[i]) >= 0 {
      var init := items[..|items| - 1];
      assert forall i :: 0 <= i < |init| ==> init[i] == items[i];
      SumNonNegative(init, f);
    }
  }

  lemma {:induction false} SumConcat(a: seq<SaleItem>, b: seq<SaleItem>, f: SaleItem -> int)
    ensures SumOf(a + b, f) == SumOf(a, f) + SumOf(b, f)
    decreases |b|
  {
    if b == [] {
      assert a + b == a;
    } else {
      var init := b[..|b| - 1];
      assert (a + b)[..|a + b| - 1] == a + init;
      SumConcat(a, init, f);
    }
  }

  lemma SumSingleton(x: SaleItem, f: SaleItem -> int)
    ensures SumOf([x], f) == f(x)
  {
    assert [x][..0] == [];
  }

  /** Replacing one item changes a sum by the difference of the two items' terms. */
  lemma {:induction false} SumUpdate(items: seq<SaleItem>, i: int, y: SaleItem, f: SaleItem -> int)
    requires 0 <= i < |items|
    ensures SumOf(items[i := y], f) == SumOf(items, f) - f(items[i]) + f(y)
  {
    var pre, post := items[..i], items[i + 1..];
    assert items == pre + [items[i]] + post;
    assert items[i := y] == pre + [y] + post;
    SumConcat(pre + [items[i]], post, f);
    SumConcat(pre, [items[i]], f);
    SumConcat(pre + [y], post, f);
    SumConcat(pre, [y], f);
    SumSingleton(items[i], f);
    SumSingleton(y, f);
  }

  /** Deleting one item lowers a sum by that item's term. */
  lemma {:induction false} SumRemoveAt(items: seq<SaleItem>, i: int, f: SaleItem -> int)
    requires 0 <= i < |items|
    ensures SumOf(items[..i] + items[i + 1..], f) == SumOf(items, f) - f(items[i])
  {
    var pre, post := items[..i], items[i + 1..];
    assert items == (pre + [items[i]]) + post;
    assert SumOf(items, f) == SumOf(pre + [items[i]], f) + SumOf(post, f) by {
      SumConcat(pre + [items[i]], post, f);
    }
    assert SumOf(pre + [items[i]], f) == SumOf(pre, f) + f(items[i]) by {
      SumConcat(pre, [items[i]], f);
      SumSingleton(items[i], f);
    }
    SumConcat(pre, post, f);
  }

  /** A sum whose terms all vanish is 0. */
  lemma {:induction false} SumOfZeros(items: seq<SaleItem>, f: SaleItem -> int)
    requires forall i :: 0 <= i < |items| ==> f(items[i]) == 0
    ensures SumOf(items, f) == 0
  {
    if items != [] {
      var init := items[..|items| - 1];
      assert forall i :: 0 <= i < |init| ==> init[i] == items[i];
      SumOfZeros(init, f);
    }
  }

  // ---------------------------------------------------------------------------
  // Laws of the store actions

  /** addItemToSale upserts by product: one more unit of the scanned product and of nothing
      else; an existing line grows by one and the total by that line's unit price, otherwise one
      line with quantity 1 is appended and the total grows by the product's price. */
  lemma {:induction false} AddUpsertsByProduct(items: seq<SaleItem>, product: Product, randomSuffix: string)
    ensures var r := AfterAdd(items, product, randomSuffix);
      && (forall pid :: QuantityOf(r, pid) == QuantityOf(items, pid) + (if pid == product.id then 1 else 0))
      && TotalQuantity(r) == TotalQuantity(items) + 1
      && var i := IndexOfProduct(items, product.id);
         if i != -1 then
           && |r| == |items| && r[i] == items[i].(quantity := items[i].quantity + 1)
           && (forall j :: 0 <= j < |items| && j != i ==> r[j] == items[j])
           && CalculateTotal(r) == CalculateTotal(items) + UnitPrice(items[i])
         else
           r == items + [NewItem(product, randomSuffix)] && CalculateTotal(r) == CalculateTotal(items) + product.price
  {
    var i := IndexOfProduct(items, product.id);
    if i != -1 {
      BumpSums(items, i);
      BumpQuantities(items, i);
    } else {
      var n := NewItem(product, randomSuffix);
      AppendSums(items, n);
      assert Subtotal(n) == product.price;
    }
  }

  /** One more unit on line i: one more unit in all, and its unit price more in total. */
  lemma {:induction false} BumpSums(items: seq<SaleItem>, i: int)
    requires 0 <= i < |items|
    ensures var r := items[i := items[i].(quantity := items[i].quantity + 1)];
      && TotalQuantity(r) == TotalQuantity(items) + 1
      && CalculateTotal(r) == CalculateTotal(items) + UnitPrice(items[i])
  {
    var y := items[i].(quantity := items[i].quantity + 1);
    SumUpdate(items, i, y, Quantity);
    SumUpdate(items, i, y, Subtotal);
    assert Subtotal(y) == Subtotal(items[i]) + UnitPrice(items[i]);
  }

  /** One more unit on line i is one more unit of its product and of no other. */
  lemma {:induction false} BumpQuantities(items: seq<SaleItem>, i: int)
    requires 0 <= i < |items|
    ensures var r := items[i := items[i].(quantity := items[i].quantity + 1)];
      forall pid :: QuantityOf(r, pid) == QuantityOf(items, pid) + (if pid == items[i].productId then 1 else 0)
  {
    var y := items[i].(quantity := items[i].quantity + 1);
    forall pid ensures QuantityOf(items[i := y], pid) == QuantityOf(items, pid) + (if pid == items[i].productId then 1 else 0) {
      SumUpdate(items, i, y, UnitsOfProduct(pid));
    }
  }

  /** An appended line adds its own terms to every sum. */
  lemma {:induction false} AppendSums(items: seq<SaleItem>, n: SaleItem)
    ensures forall pid :: QuantityOf(items + [n], pid) == QuantityOf(items, pid) + (if n.productId == pid then n.quantity else 0)
    ensures TotalQuantity(items + [n]) == TotalQuantity(items) + n.quantity
    ensures CalculateTotal(items + [n]) == CalculateTotal(items) + Subtotal(n)
  {
    forall pid ensures QuantityOf(items + [n], pid) == QuantityOf(items, pid) + (if n.productId == pid then n.quantity else 0) {
      SumConcat(items, [n], UnitsOfProduct(pid));
      SumSingleton(n, UnitsOfProduct(pid));
    }
    SumConcat(items, [n], Quantity);
    SumSingleton(n, Quantity);
    SumConcat(items, [n], Subtotal);
    SumSingleton(n, Subtotal);
  }

  /** addItemToSale keeps product ids unique and every quantity at least 1. */
  lemma AddKeepsWellFormed(items: seq<SaleItem>, product: Product, randomSuffix: string)
    requires WellFormed(items)
    ensures WellFormed(AfterAdd(items, product, randomSuffix))
  {
  }

  /** Scanning one product n times into an empty sale gives one line with quantity n and
      total n times the price. */
  lemma {:induction false} RepeatedScans(product: Product, randomSuffix: string, n: nat)
    requires n >= 1
    ensures Scans([], product, randomSuffix, n) == [NewItem(product, randomSuffix).(quantity := n)]
    ensures CalculateTotal(Scans([], product, randomSuffix, n)) == n * product.price
  {
    var line := NewItem(product, randomSuffix).(quantity := n);
    if n > 1 {
      RepeatedScans(product, randomSuffix, n - 1);
      var before := Scans([], product, randomSuffix, n - 1);
      assert IndexOfProduct(before, product.id) == 0;
      assert Scans([], product, randomSuffix, n) == [line];
    }
    SumSingleton(line, Subtotal);
  }

  /** increaseItemQuantity: the first line with that id grows by one unit and the total by its
      unit price; an unknown id changes nothing. */
  lemma {:induction false} IncreaseLaw(items: seq<SaleItem>, itemId: string)
    ensures var r := AfterIncrease(items, itemId);
      var i := IndexOfItem(items, itemId);
      if i == -1 then r == items
      else
        && |r| == |items| && r[i] == items[i].(quantity := items[i].quantity + 1)
        && (forall j :: 0 <= j < |items| && j != i ==> r[j] == items[j])
        && CalculateTotal(r) == CalculateTotal(items) + UnitPrice(items[i])
        && TotalQuantity(r) == TotalQuantity(items) + 1
  {
    var i := IndexOfItem(items, itemId);
    if i != -1 {
      var r := items[i := items[i].(quantity := items[i].quantity + 1)];
      assert AfterIncrease(items, itemId) == r;
      BumpSums(items, i);
    }
  }

  lemma IncreaseKeepsWellFormed(items: seq<SaleItem>, itemId: string)
    requires WellFormed(items)
    ensures WellFormed(AfterIncrease(items, itemId))
  {
  }

  /** reduceItemFromSale: on a list with positive quantities, the first line with that id loses
      one unit, and is deleted when it had only one, so the total falls by that line's unit price
      either way; an unknown id changes nothing. */
  lemma {:induction false} ReduceLaw(items: seq<SaleItem>, itemId: string)
    requires PositiveQuantities(items)
    ensures var r := AfterReduce(items, itemId);
      var i := IndexOfItem(items, itemId);
      if i == -1 then r == items
      else
        && (items[i].quantity > 1 ==>
              && |r| == |items| && r[i] == items[i].(quantity := items[i].quantity - 1)
              && (forall j :: 0 <= j < |items| && j != i ==> r[j] == items[j]))
        && (items[i].quantity == 1 ==>
              && |r| == |items| - 1
              && (forall j :: 0 <= j < |r| ==> r[j] == items[if j < i then j else j + 1]))
        && CalculateTotal(r) == CalculateTotal(items) - UnitPrice(items[i])
        && TotalQuantity(r) == TotalQuantity(items) - 1
  {
    var i := IndexOfItem(items, itemId);
    if i != -1 {
      if items[i].quantity > 1 {
        var r := items[i := items[i].(quantity := items[i].quantity - 1)];
        assert AfterReduce(items, itemId) == r;
        DropSums(items, i);
      } else {
        assert AfterReduce(items, itemId) == items[..i] + items[i + 1..];
        RemoveAtSums(items, i);
      }
    }
  }

  /** One unit less on line i: its unit price less in total, one unit less in all. */
  lemma {:induction false} DropSums(items: seq<SaleItem>, i: int)
    requires 0 <= i < |items|
    ensures var r := items[i := items[i].(quantity := items[i].quantity - 1)];
      && CalculateTotal(r) == CalculateTotal(items) - UnitPrice(items[i])
      && TotalQuantity(r) == TotalQuantity(items) - 1
  {
    var y := items[i].(quantity := items[i].quantity - 1);
    SumUpdate(items, i, y, Subtotal);
    SumUpdate(items, i, y, Quantity);
    assert Subtotal(y) == Subtotal(items[i]) - UnitPrice(items[i]);
  }

  /** Deleting a line of one unit shifts the later lines down by one; the total falls by its
      unit price and the unit count by one. */
  lemma {:induction false} RemoveAtSums(items: seq<SaleItem>, i: int)
    requires 0 <= i < |items| && items[i].quantity == 1
    ensures var r := items[..i] + items[i + 1..];
      && |r| == |items| - 1
      && (forall j :: 0 <= j < |r| ==> r[j] == items[if j < i then j else j + 1])
      && CalculateTotal(r) == CalculateTotal(items) - UnitPrice(items[i])
      && TotalQuantity(r) == TotalQuantity(items) - 1
  {
    SumRemoveAt(items, i, Subtotal);
    SumRemoveAt(items, i, Quantity);
    assert Subtotal(items[i]) == UnitPrice(items[i]);
  }

  /** reduceItemFromSale keeps product ids unique and every remaining quantity at least 1. */
  lemma ReduceKeepsWellFormed(items: seq<SaleItem>, itemId: string)
    requires WellFormed(items)
    ensures WellFormed(AfterReduce(items, itemId))
  {
    var i := IndexOfItem(items, itemId);
    var r := AfterReduce(items, itemId);
    if i != -1 && items[i].quantity <= 1 {
      assert r == items[..i] + items[i + 1..];
      assert forall j :: 0 <= j < |r| ==> r[j] == items[if j < i then j else j + 1];
    }
  }

  /** removeItemFromSale keeps exactly the lines whose id differs, in their order. */
  lemma {:induction false} RemoveLaw(items: seq<SaleItem>, itemId: string)
    ensures var r := AfterRemove(items, itemId);
      && (forall x :: x in r <==> x in items && x.id != itemId)
      && |r| <= |items|
      && ((forall j :: 0 <= j < |items| ==> items[j].id != itemId) ==> r == items)
  {
    if items != [] {
      var init := items[..|items| - 1];
      RemoveLaw(init, itemId);
      assert items == init + [items[|items| - 1]];
    }
  }

  /** Filtering distributes over concatenation, so the kept lines stay in order. */
  lemma {:induction false} RemoveDistributes(a: seq<SaleItem>, b: seq<SaleItem>, itemId: string)
    ensures AfterRemove(a + b, itemId) == AfterRemove(a, itemId) + AfterRemove(b, itemId)
    decreases |b|
  {
    if b == [] {
      assert a + b == a;
    } else {
      var init := b[..|b| - 1];
      assert (a + b)[..|a + b| - 1] == a + init;
      assert (a + b)[|a + b| - 1] == b[|b| - 1];
      RemoveDistributes(a, init, itemId);
    }
  }

  /** Removing lines never breaks uniqueness of products or positivity of quantities. */
  lemma {:induction false} RemoveKeepsWellFormed(items: seq<SaleItem>, itemId: string)
    requires WellFormed(items)
    ensures WellFormed(AfterRemove(items, itemId))
  {
    if items != [] {
      var init := items[..|items| - 1];
      var last := items[|items| - 1];
      assert forall j :: 0 <= j < |init| ==> init[j] == items[j];
      assert WellFormed(init);
      RemoveKeepsWellFormed(init, itemId);
      RemoveLaw(init, itemId);
      var rest := AfterRemove(init, itemId);
      if last.id != itemId {
        forall x | x in rest ensures x.productId != last.productId {
          var j :| 0 <= j < |init| && init[j] == x;
          assert items[j].productId != items[|items| - 1].productId;
        }
        AppendKeepsWellFormed(rest, last);
      }
    }
  }

  /** A line for a product not yet present, with a positive quantity, keeps a list well formed. */
  lemma AppendKeepsWellFormed(items: seq<SaleItem>, x: SaleItem)
    requires WellFormed(items) && x.quantity >= 1
    requires forall y :: y in items ==> y.productId != x.productId
    ensures WellFormed(items + [x])
  {
    var r := items + [x];
    forall i, j | 0 <= i < j < |r| ensures r[i].productId != r[j].productId {
      if j == |items| {
        assert r[i] in items;
      }
    }
  }

  // ---------------------------------------------------------------------------
  // The store

  /** The zustand store holding the sale in progress. */
  class SalesStore {
    var sales: seq<SaleItem>
    var total: int
    var paymentMethod: PaymentMethod
    var change: int
    var amountReceived: int

    /** total is always the sum of the lines; products are unique and quantities positive. */
    ghost predicate Valid()
      reads this
    {
      total == CalculateTotal(sales) && WellFormed(sales)
    }

    constructor ()
      ensures Valid()
      ensures sales == [] && total == 0 && paymentMethod == Cash
      ensures amountReceived == 0 && change == 0
    {
      sales, total, paymentMethod, amountReceived, change := [], 0, Cash, 0, 0;
    }

    method AddItemToSale(product: Product, randomSuffix: string)
      requires Valid()
      modifies this
      ensures Valid()
      ensures sales == AfterAdd(old(sales), product, randomSuffix)
      ensures paymentMethod == old(paymentMethod) && change == old(change)
      ensures amountReceived == old(amountReceived)
    {
      AddKeepsWellFormed(sales, product, randomSuffix);
      var existingItemIndex := IndexOfProduct(sales, product.id);
      if existingItemIndex != -1 {
        var updatedSales := sales;
        var item := updatedSales[existingItemIndex];
        updatedSales := updatedSales[existingItemIndex := item.(quantity := item.quantity + 1)];
        sales, total := updatedSales, CalculateTotal(updatedSales);
      } else {
        var newSaleItem := SaleItem("temp-" + randomSuffix, "", product.id, 1, Some(product));
        var updateSales := sales + [newSaleItem];
        sales, total := updateSales, CalculateTotal(updateSales);
      }
    }

    method IncreaseItemQuantity(itemId: string)
      requires Valid()
      modifies this
      ensures Valid()
      ensures sales == AfterIncrease(old(sales), itemId)
      ensures paymentMethod == old(paymentMethod) && change == old(change)
      ensures amountReceived == old(amountReceived)
    {
      IncreaseKeepsWellFormed(sales, itemId);
      var existingItemIndex := IndexOfItem(sales, itemId);
      if existingItemIndex != -1 {
        var updatedSales := sales;
        var item := updatedSales[existingItemIndex];
        updatedSales := updatedSales[existingItemIndex := item.(quantity := item.quantity + 1)];
        sales, total := updatedSales, CalculateTotal(updatedSales);
        return;
      }
      total := CalculateTotal(sales);
    }

    method ReduceItemFromSale(itemId: string)
      requires Valid()
      modifies this
      ensures Valid()
      ensures sales == AfterReduce(old(sales), itemId)
      ensures paymentMethod == old(paymentMethod) && change == old(change)
      ensures amountReceived == old(amountReceived)
    {
      ReduceKeepsWellFormed(sales, itemId);
      var existingItemIndex := IndexOfItem(sales, itemId);
      if existingItemIndex != -1 {
        var updatedSales := sales;
        var item := updatedSales[existingItemIndex];
        if item.quantity > 1 {
          updatedSales := updatedSales[existingItemIndex := item.(quantity := item.quantity - 1)];
          sales, total := updatedSales, CalculateTotal(updatedSales);
        } else {
          updatedSales := updatedSales[..existingItemIndex] + updatedSales[existingItemIndex + 1..];
          sales, total := updatedSales, CalculateTotal(updatedSales);
        }
        return;
      }
      total := CalculateTotal(sales);
    }

    method RemoveItemFromSale(itemId: string)
      requires Valid()
      modifies this
      ensures Valid()
      ensures sales == AfterRemove(old(sales), itemId)
      ensures paymentMethod == old(paymentMethod) && change == old(change)
      ensures amountReceived == old(amountReceived)
    {
      RemoveKeepsWellFormed(sales, itemId);
      var updatedSales := AfterRemove(sales, itemId);
      sales, total := updatedSales, CalculateTotal(updatedSales);
    }

    method ClearSale()
      requires Valid()
      modifies this
      ensures Valid()
      ensures sales == [] && total == 0 && amountReceived == 0 && change == 0
      ensures paymentMethod == old(paymentMethod)
    {
      sales, total, amountReceived, change := [], 0, 0, 0;
    }

    method SetAmountReceived(amount: int)
      requires Valid()
      modifies this
      ensures Valid()
      ensures amountReceived == amount
      ensures sales == old(sales) && total == old(total)
      ensures paymentMethod == old(paymentMethod) && change == old(change)
    {
      amountReceived := amount;
    }

    method SetChange(newChange: int)
      requires Valid()
      modifies this
      ensures Valid()
      ensures change == newChange
      ensures sales == old(sales) && total == old(total)
      ensures paymentMethod == old(paymentMethod) && amountReceived == old(amountReceived)
    {
      change := newChange;
    }

    method SetPaymentMethod(method_: PaymentMethod)
      requires Valid()
      modifies this
      ensures Valid()
      ensures paymentMethod == method_
      ensures sales == old(sales) && total == old(total)
      ensures change == old(change) && amountReceived == old(amountReceived)
    {
      paymentMethod := method_;
    }
  }
}

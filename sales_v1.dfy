/** `GET` and `POST /api/v1/sales`: the filtered, paged listing of sales and the creation of
    an empty pending sale for the caller. */
module SalesV1 {
  import opened Js
  import opened Schema
  import opened Api
  import opened Pagination
  import Auth

  /** One entry of the handler's `conditions` list. */
  datatype SaleCondition =
    | StatusIs(status: string)
    | SaleDateAtLeast(instant: int)
    | SaleDateAtMost(instant: int)
    | SellerIs(sellerId: JsNumber)

  predicate Holds(c: SaleCondition, sale: Sale) {
    match c
    case StatusIs(status) => SaleStatusName(sale.status) == status
    case SaleDateAtLeast(t) => sale.saleDate >= t
    case SaleDateAtMost(t) => sale.saleDate <= t
    case SellerIs(id) => id.Int? && sale.sellerId == id
  }

  /** The where-clause: the conditions ANDed (a single condition stands alone). */
  predicate AllHold(conditions: seq<SaleCondition>, sale: Sale) {
    forall i :: 0 <= i < |conditions| ==> Holds(conditions[i], sale)
  }

  /** The filter the listing promises, independently of how the list is built. `dateOf` is
      `new Date(…)` as an instant. */
  predicate Selects(status: string, startDate: Option<string>, endDate: Option<string>,
                    sellerId: Option<string>, dateOf: string -> int, sale: Sale) {
    && SaleStatusName(sale.status) == status
    && (Truthy(startDate) ==> sale.saleDate >= dateOf(startDate.value))
    && (Truthy(endDate) ==> sale.saleDate <= dateOf(endDate.value))
    && (Truthy(sellerId) ==> ParseInt(sellerId.value).Int? && sale.sellerId == ParseInt(sellerId.value))
  }

  /** Builds the where-clause by pushing one condition per given filter. */
  method BuildConditions(status: string, startDate: Option<string>, endDate: Option<string>,
                         sellerId: Option<string>, dateOf: string -> int)
    returns (conditions: seq<SaleCondition>)
    ensures |conditions| >= 1 && conditions[0] == StatusIs(status)
    ensures |conditions| == 1 + (if Truthy(startDate) then 1 else 0) + (if Truthy(endDate) then 1 else 0)
                              + (if Truthy(sellerId) then 1 else 0)
    ensures forall sale :: AllHold(conditions, sale) <==> Selects(status, startDate, endDate, sellerId, dateOf, sale)
  {
    conditions := [StatusIs(status)];
    if Truthy(startDate) {
      conditions := conditions + [SaleDateAtLeast(dateOf(startDate.value))];
    }
    assert conditions == [StatusIs(status)] + When(Truthy(startDate), AtLeast(startDate, dateOf));
    if Truthy(endDate) {
      conditions := conditions + [SaleDateAtMost(dateOf(endDate.value))];
    }
    assert conditions == [StatusIs(status)] + When(Truthy(startDate), AtLeast(startDate, dateOf))
                         + When(Truthy(endDate), AtMost(endDate, dateOf));
    if Truthy(sellerId) {
      conditions := conditions + [SellerIs(ParseInt(sellerId.value))];
    }
    assert conditions == Pushed(status, startDate, endDate, sellerId, dateOf);
    forall sale ensures AllHold(conditions, sale) <==> Selects(status, startDate, endDate, sellerId, dateOf, sale) {
      PushedMeaning(status, startDate, endDate, sellerId, dateOf, sale);
    }
  }

  /** The list a given filter contributes: its condition, or nothing. */
  function When(given: bool, c: SaleCondition): seq<SaleCondition> {
    if given then [c] else []
  }

  function AtLeast(startDate: Option<string>, dateOf: string -> int): SaleCondition {
    SaleDateAtLeast(if startDate.Some? then dateOf(startDate.value) else 0)
  }

  function AtMost(endDate: Option<string>, dateOf: string -> int): SaleCondition {
    SaleDateAtMost(if endDate.Some? then dateOf(endDate.value) else 0)
  }

  function BySeller(sellerId: Option<string>): SaleCondition {
    SellerIs(if sellerId.Some? then ParseInt(sellerId.value) else NaN)
  }

  /** The conditions after every push, written as one concatenation. */
  function Pushed(status: string, startDate: Option<string>, endDate: Option<string>,
                  sellerId: Option<string>, dateOf: string -> int): seq<SaleCondition> {
    [StatusIs(status)]
      + When(Truthy(startDate), AtLeast(startDate, dateOf))
      + When(Truthy(endDate), AtMost(endDate, dateOf))
      + When(Truthy(sellerId), BySeller(sellerId))
  }

  lemma PushedMeaning(status: string, startDate: Option<string>, endDate: Option<string>,
                      sellerId: Option<string>, dateOf: string -> int, sale: Sale)
    ensures AllHold(Pushed(status, startDate, endDate, sellerId, dateOf), sale)
            <==> Selects(status, startDate, endDate, sellerId, dateOf, sale)
  {
    var c0 := [StatusIs(status)];
    var c1 := When(Truthy(startDate), AtLeast(startDate, dateOf));
    var c2 := When(Truthy(endDate), AtMost(endDate, dateOf));
    var c3 := When(Truthy(sellerId), BySeller(sellerId));
    AllHoldConcat(c0 + c1 + c2, c3, sale);
    AllHoldConcat(c0 + c1, c2, sale);
    AllHoldConcat(c0, c1, sale);
    assert AllHold(c0, sale) <==> Holds(c0[0], sale);
    assert Truthy(startDate) ==> (AllHold(c1, sale) <==> Holds(c1[0], sale));
    assert Truthy(endDate) ==> (AllHold(c2, sale) <==> Holds(c2[0], sale));
    assert Truthy(sellerId) ==> (AllHold(c3, sale) <==> Holds(c3[0], sale));
  }

  lemma AllHoldConcat(a: seq<SaleCondition>, b: seq<SaleCondition>, sale: Sale)
    ensures AllHold(a + b, sale) <==> AllHold(a, sale) && AllHold(b, sale)
  {
    if AllHold(a + b, sale) {
      forall i | 0 <= i < |a| ensures Holds(a[i], sale) {
        assert (a + b)[i] == a[i];
      }
      forall i | 0 <= i < |b| ensures Holds(b[i], sale) {
        assert (a + b)[|a| + i] == b[i];
      }
    }
  }

  /** The listing's payload: the where-clause, the page window asked of the database
      (offset and limit) and the pagination block. */
  datatype SalesListing = SalesListing(conditions: seq<SaleCondition>, offset: JsNumber, limit: JsNumber, pagination: PageMeta)

  /** `GET /api/v1/sales`. The status defaults to CONCLUDED and page and limit to 1 and 10,
      with an empty parameter counting as missing; there is no validation of page or limit.
      `dbOk` says whether the database calls succeed. */
  method GetSales(searchParams: map<string, string>, sales: seq<Sale>, dbOk: bool, dateOf: string -> int)
    returns (reply: Reply<SalesListing>)
    ensures !dbOk ==> reply == Fail(500, InternalError)
    ensures dbOk ==>
      var status := OrDefault(Get(searchParams, "status"), "CONCLUDED");
      var page := ParseInt(OrDefault(Get(searchParams, "page"), "1"));
      var limit := ParseInt(OrDefault(Get(searchParams, "limit"), "10"));
      && reply.status == 200 && reply.body.Payload?
      && reply.body.value.offset == Skip(page, limit) && reply.body.value.limit == limit
      && (forall sale :: AllHold(reply.body.value.conditions, sale) <==>
            Selects(status, Get(searchParams, "startDate"), Get(searchParams, "endDate"),
                    Get(searchParams, "sellerId"), dateOf, sale))
      && reply.body.value.pagination == Meta(Count(sales, (sale: Sale) =>
            Selects(status, Get(searchParams, "startDate"), Get(searchParams, "endDate"),
                    Get(searchParams, "sellerId"), dateOf, sale)), page, limit)
  {
    var startDate := Get(searchParams, "startDate");
    var endDate := Get(searchParams, "endDate");
    var sellerId := Get(searchParams, "sellerId");
    var status := OrDefault(Get(searchParams, "status"), "CONCLUDED");
    var page := ParseInt(OrDefault(Get(searchParams, "page"), "1"));
    var limit := ParseInt(OrDefault(Get(searchParams, "limit"), "10"));
    if !dbOk {
      return Fail(500, InternalError);
    }
    var skip := Skip(page, limit);
    var conditions := BuildConditions(status, startDate, endDate, sellerId, dateOf);
    var totalSales := Count(sales, (sale: Sale) => AllHold(conditions, sale));
    CountAgrees(sales, (sale: Sale) => AllHold(conditions, sale),
                (sale: Sale) => Selects(status, startDate, endDate, sellerId, dateOf, sale));
    reply := Reply(200, Payload(SalesListing(conditions, skip, limit, Meta(totalSales, page, limit))));
  }

  /** The row a new sale starts as: pending, cash, nothing charged, received or given back. */
  function NewSale(id: string, sellerId: JsNumber, now: int): Sale {
    Sale(id, sellerId, Cash, 0, 0, 0, now, Pending)
  }

  /** `POST /api/v1/sales`: a pending sale of the caller, with id `newId` and dated `now`. */
  function PostSale(headers: map<string, string>, sales: seq<Sale>, dbOk: bool, newId: string, now: int)
    : (r: Handled<Sale, seq<Sale>>)
    ensures !dbOk ==> r == Handled(Fail(500, InternalError), sales)
    ensures dbOk ==> r.reply.status == 201 && r.reply.body.Payload?
    ensures dbOk ==>
      var sale := r.reply.body.value;
      && r.store == sales + [sale]
      && sale.id == newId && sale.saleDate == now
      && sale.sellerId == Auth.GetAuthenticatedUser(headers).id
      && sale.status == Pending && sale.paymentMethod == Cash
      && sale.total == 0 && sale.amountReceived == 0 && sale.change == 0
  {
    var user := Auth.GetAuthenticatedUser(headers);
    if !dbOk then Handled(Fail(500, InternalError), sales)
    else
      var newSale := NewSale(newId, user.id, now);
      Handled(Reply(201, Payload(newSale)), sales + [newSale])
  }

  /** A created sale is one more pending sale of its seller, and it is not among the sales
      the default (concluded) listing counts. */
  lemma PostAddsOnePendingSale(headers: map<string, string>, sales: seq<Sale>, newId: string, now: int,
                               dateOf: string -> int)
    ensures var r := PostSale(headers, sales, true, newId, now);
      var seller := Auth.GetAuthenticatedUser(headers).id;
      var pending := (s: Sale) => s.status == Pending && s.sellerId == seller;
      var concluded := (s: Sale) => Selects("CONCLUDED", None, None, None, dateOf, s);
      && Count(r.store, pending) == Count(sales, pending) + 1
      && Count(r.store, concluded) == Count(sales, concluded)
  {
    var r := PostSale(headers, sales, true, newId, now);
    var seller := Auth.GetAuthenticatedUser(headers).id;
    CountAppend(sales, r.reply.body.value, (s: Sale) => s.status == Pending && s.sellerId == seller);
    CountAppend(sales, r.reply.body.value, (s: Sale) => Selects("CONCLUDED", None, None, None, dateOf, s));
  }
}

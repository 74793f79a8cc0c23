/** `/api/sales` of the pages router: the same listing and creation as the v1 route, with the
    where-clause built as an object whose later spreads overwrite earlier keys. */
module SalesPages {
  import opened Js
  import opened Schema
  import opened Api
  import opened Pagination
  import SalesV1

  /** One value of the where-object. */
  datatype WhereValue =
    | StatusEquals(status: string)
    | SaleDateGte(instant: int)
    | SaleDateLte(instant: int)
    | SellerEquals(sellerId: JsNumber)

  predicate HoldsValue(v: WhereValue, sale: Sale) {
    match v
    case StatusEquals(status) => SaleStatusName(sale.status) == status
    case SaleDateGte(t) => sale.saleDate >= t
    case SaleDateLte(t) => sale.saleDate <= t
    case SellerEquals(id) => id.Int? && sale.sellerId == id
  }

  /** `{ status, ...(startDate && {saleDate: gte}), ...(endDate && {saleDate: lte}),
      ...(sellerId && {sellerId}) }`: a falsy filter spreads nothing, and a later key replaces
      an earlier one. */
  function Where(status: string, startDate: Option<string>, endDate: Option<string>,
                 sellerId: Option<string>, dateOf: string -> int): (w: map<string, WhereValue>)
    ensures forall k :: k in w ==> k == "status" || k == "saleDate" || k == "sellerId"
    ensures "status" in w && w["status"] == StatusEquals(status)
    ensures "saleDate" in w <==> Truthy(startDate) || Truthy(endDate)
    ensures "sellerId" in w <==> Truthy(sellerId)
    ensures Truthy(endDate) ==> w["saleDate"] == SaleDateLte(dateOf(endDate.value))
    ensures Truthy(startDate) && !Truthy(endDate) ==> w["saleDate"] == SaleDateGte(dateOf(startDate.value))
    ensures Truthy(sellerId) ==> w["sellerId"] == SellerEquals(ParseInt(sellerId.value))
  {
    var base := map["status" := StatusEquals(status)];
    var withStart := if Truthy(startDate) then base["saleDate" := SaleDateGte(dateOf(startDate.value))] else base;
    var withEnd := if Truthy(endDate) then withStart["saleDate" := SaleDateLte(dateOf(endDate.value))] else withStart;
    if Truthy(sellerId) then withEnd["sellerId" := SellerEquals(ParseInt(sellerId.value))] else withEnd
  }

  /** A row matches a where-object when it satisfies every entry. */
  predicate Matches(where: map<string, WhereValue>, sale: Sale) {
    forall k :: k in where ==> HoldsValue(where[k], sale)
  }

  datatype SalesPayload =
    | Listing(where: map<string, WhereValue>, skip: JsNumber, take: JsNumber, pagination: PageMeta)
    | CreatedSale(sale: Sale)

  /** The handler behind `authenticate`. `user` is the request's user (None when there is
      none), `query` the query string, `dbOk` whether the database calls succeed, `newId` and
      `now` the new row's id and default date. */
  function Handle(method_: string, user: Option<UserRow>, query: map<string, string>, sales: seq<Sale>,
                  dbOk: bool, dateOf: string -> int, newId: string, now: int)
    : (r: Handled<SalesPayload, seq<Sale>>)
    ensures r.store != sales ==> method_ == "POST"
    ensures user.None? ==> r == Handled(Fail(401, Unauthorized), sales)
    ensures user.Some? && method_ != "GET" && method_ != "POST" ==> r == Handled(Fail(405, MethodNotAllowed), sales)
    ensures user.Some? && (method_ == "GET" || method_ == "POST") && !dbOk ==> r == Handled(Fail(500, InternalError), sales)
    ensures user.Some? && method_ == "GET" && dbOk ==>
      var status := Defaulted(Get(query, "status"), "CONCLUDED");
      var page := ParseInt(Defaulted(Get(query, "page"), "1"));
      var limit := ParseInt(Defaulted(Get(query, "limit"), "10"));
      var where := Where(status, Get(query, "startDate"), Get(query, "endDate"), Get(query, "sellerId"), dateOf);
      r.reply == Reply(200, Payload(Listing(where, Skip(page, limit), limit,
                         Meta(Count(sales, (s: Sale) => Matches(where, s)), page, limit))))
    ensures user.Some? && method_ == "POST" && dbOk ==>
      && r.reply == Reply(201, Payload(CreatedSale(SalesV1.NewSale(newId, Int(user.value.id), now))))
      && r.store == sales + [SalesV1.NewSale(newId, Int(user.value.id), now)]
  {
    if user.None? then Handled(Fail(401, Unauthorized), sales)
    else if method_ == "GET" then
      var status := Defaulted(Get(query, "status"), "CONCLUDED");
      var pageNumber := ParseInt(Defaulted(Get(query, "page"), "1"));
      var pageSize := ParseInt(Defaulted(Get(query, "limit"), "10"));
      if !dbOk then Handled(Fail(500, InternalError), sales)
      else
        var where := Where(status, Get(query, "startDate"), Get(query, "endDate"), Get(query, "sellerId"), dateOf);
        var totalSales := Count(sales, (s: Sale) => Matches(where, s));
        Handled(Reply(200, Payload(Listing(where, Skip(pageNumber, pageSize), pageSize,
                                           Meta(totalSales, pageNumber, pageSize)))), sales)
    else if method_ == "POST" then
      if !dbOk then Handled(Fail(500, InternalError), sales)
      else
        var newSale := SalesV1.NewSale(newId, Int(user.value.id), now);
        Handled(Reply(201, Payload(CreatedSale(newSale))), sales + [newSale])
    else Handled(Fail(405, MethodNotAllowed), sales)
  }

  /** What a row must satisfy to match the where-object: the status, the surviving date bound
      (the upper one whenever an end date is given) and the seller. */
  lemma MatchesWhere(status: string, startDate: Option<string>, endDate: Option<string>,
                     sellerId: Option<string>, dateOf: string -> int, sale: Sale)
    ensures Matches(Where(status, startDate, endDate, sellerId, dateOf), sale) <==>
      && SaleStatusName(sale.status) == status
      && (Truthy(endDate) ==> sale.saleDate <= dateOf(endDate.value))
      && (Truthy(startDate) && !Truthy(endDate) ==> sale.saleDate >= dateOf(startDate.value))
      && (Truthy(sellerId) ==> ParseInt(sellerId.value).Int? && sale.sellerId == ParseInt(sellerId.value))
  {
    var where := Where(status, startDate, endDate, sellerId, dateOf);
    if Matches(where, sale) {
      assert HoldsValue(where["status"], sale);
      if Truthy(startDate) || Truthy(endDate) {
        assert HoldsValue(where["saleDate"], sale);
      }
      if Truthy(sellerId) {
        assert HoldsValue(where["sellerId"], sale);
      }
    }
  }

  /** With both dates given only the upper bound survives the spread: the pages listing keeps
      every sale the v1 listing keeps, and the extra ones are exactly those before the start. */
  lemma BothDatesKeepOnlyUpperBound(status: string, startDate: string, endDate: string,
                                    sellerId: Option<string>, dateOf: string -> int, sale: Sale)
    requires startDate != "" && endDate != ""
    ensures var where := Where(status, Some(startDate), Some(endDate), sellerId, dateOf);
      && (SalesV1.Selects(status, Some(startDate), Some(endDate), sellerId, dateOf, sale) ==> Matches(where, sale))
      && (Matches(where, sale) && !SalesV1.Selects(status, Some(startDate), Some(endDate), sellerId, dateOf, sale)
          <==> Matches(where, sale) && sale.saleDate < dateOf(startDate))
  {
    MatchesWhere(status, Some(startDate), Some(endDate), sellerId, dateOf, sale);
  }

  /** Without both dates the two routers filter alike, given the same status string. */
  lemma AtMostOneDateAgreesWithV1(status: string, startDate: Option<string>, endDate: Option<string>,
                                  sellerId: Option<string>, dateOf: string -> int, sale: Sale)
    requires !(Truthy(startDate) && Truthy(endDate))
    ensures Matches(Where(status, startDate, endDate, sellerId, dateOf), sale)
            <==> SalesV1.Selects(status, startDate, endDate, sellerId, dateOf, sale)
  {
    MatchesWhere(status, startDate, endDate, sellerId, dateOf, sale);
  }

  /** An empty `status` parameter is missing to the v1 route, which lists CONCLUDED sales, but
      is kept by the pages route's destructuring default. */
  lemma EmptyStatusDiffers(query: map<string, string>)
    requires "status" in query && query["status"] == ""
    ensures OrDefault(Get(query, "status"), "CONCLUDED") == "CONCLUDED"
    ensures Defaulted(Get(query, "status"), "CONCLUDED") == ""
  {
  }
}

/** `/api/products` of the pages router: the same listing and creation as the v1 route for the
    request's authenticated user, answering 405 to any other method. */
module ProductsPages {
  import opened Js
  import opened Schema
  import opened Api
  import opened Pagination
  import opened ProductsV1

  datatype ProductsPayload = Listed(listing: ProductsListing) | CreatedProduct(product: Product)

  /** The handler behind `authenticate`, which supplies the request's `user` row. `body` is the
      parsed request body, `dbOk` whether the database calls succeed, `newId` and `now` the
      new row's id and creation date. */
  function Handle(method_: string, user: UserRow, query: map<string, string>, body: ProductBody,
                  products: seq<Product>, dbOk: bool, newId: string, now: int)
    : (r: Handled<ProductsPayload, seq<Product>>)
    ensures method_ != "GET" && method_ != "POST" ==> r == Handled(Fail(405, MethodNotAllowed), products)
    ensures method_ == "GET" ==>
      var page := ParseInt(Defaulted(Get(query, "page"), "1"));
      var limit := ParseInt(Defaulted(Get(query, "limit"), "10"));
      && r.store == products
      && (!ValidPagination(page, limit) <==> r.reply == Fail(400, InvalidPagination))
      && (ValidPagination(page, limit) && !dbOk ==> r.reply == Fail(500, InternalError))
      && (ValidPagination(page, limit) && dbOk ==> r.reply == Reply(200, Payload(Listed(Listing(products, page, limit)))))
    ensures method_ == "POST" ==>
      && (!HasRequiredFields(body) ==> r == Handled(Fail(400, MissingFields), products))
      && (r.reply.status == 201 <==> HasRequiredFields(body) && dbOk)
      && (r.reply.status == 201 ==>
            var added := NewProduct(body, Int(user.id), newId, now);
            r.reply == Reply(201, Payload(CreatedProduct(added))) && r.store == products + [added])
    ensures r.reply.status != 201 ==> r.store == products
  {
    if method_ == "GET" then
      var pageNumber := ParseInt(Defaulted(Get(query, "page"), "1"));
      var pageSize := ParseInt(Defaulted(Get(query, "limit"), "10"));
      if !ValidPagination(pageNumber, pageSize) then Handled(Fail(400, InvalidPagination), products)
      else if !dbOk then Handled(Fail(500, InternalError), products)
      else Handled(Reply(200, Payload(Listed(Listing(products, pageNumber, pageSize)))), products)
    else if method_ == "POST" then
      if !HasRequiredFields(body) then Handled(Fail(400, MissingFields), products)
      else if !dbOk then Handled(Fail(500, InternalError), products)
      else
        var newProduct := NewProduct(body, Int(user.id), newId, now);
        Handled(Reply(201, Payload(CreatedProduct(newProduct))), products + [newProduct])
    else Handled(Fail(405, MethodNotAllowed), products)
  }

  /** When the caller's id header holds the user's id, a creation inserts the same row on both
      routers. */
  lemma CreationAgreesWithV1(headers: map<string, string>, user: UserRow, query: map<string, string>,
                             body: ProductBody, products: seq<Product>, dbOk: bool, newId: string, now: int)
    requires "x-user-id" in headers && headers["x-user-id"] == IntToString(user.id)
    ensures var v1 := PostProduct(headers, Some(body), products, dbOk, newId, now);
      var pages := Handle("POST", user, query, body, products, dbOk, newId, now);
      v1.reply.status == pages.reply.status && v1.store == pages.store
  {
    ParseIntAutoRadixOfIntToString(user.id);
  }
}

/** `GET` and `POST /api/v1/products`: the paged listing of active products, newest first, and
    the creation of a product recorded as created and last updated by the caller. */
module ProductsV1 {
  import opened Js
  import opened Schema
  import opened Api
  import opened Pagination
  import Auth

  predicate IsActive(p: Product) {
    p.active == Active
  }

  datatype ProductsListing = ProductsListing(data: seq<Product>, order: Order, meta: PageMeta)

  /** The rows run from the newest to the oldest creation date. */
  predicate NewestFirst(ps: seq<Product>) {
    forall i, j :: 0 <= i < j < |ps| ==> ps[i].createdAt >= ps[j].createdAt
  }

  /** The page of active products of `products`, a table given in `createdAt` descending
      order, for a valid page and limit: the active rows from offset (page - 1) * limit on, at
      most limit of them. */
  function ActivePage(products: seq<Product>, page: JsNumber, limit: JsNumber): (data: seq<Product>)
    requires ValidPagination(page, limit)
    ensures var active := Filter(products, IsActive);
      var skip := Skip(page, limit).value;
      && |data| == (if skip >= |active| then 0 else Min(limit.value, |active| - skip))
      && forall i :: 0 <= i < |data| ==> data[i] == active[skip + i]
    ensures forall p :: p in data ==> p in products && IsActive(p)
  {
    Window(Filter(products, IsActive), Skip(page, limit).value, limit.value)
  }

  /** Keeping only some rows of a newest-first table leaves them newest first. */
  lemma {:induction false} FilterKeepsNewestFirst(products: seq<Product>, keep: Product -> bool)
    requires NewestFirst(products)
    ensures NewestFirst(Filter(products, keep))
  {
    if products != [] {
      var init := products[..|products| - 1];
      var last := products[|products| - 1];
      assert NewestFirst(init);
      FilterKeepsNewestFirst(init, keep);
      var rest := Filter(init, keep);
      if keep(last) {
        var r := rest + [last];
        forall i, j | 0 <= i < j < |r| ensures r[i].createdAt >= r[j].createdAt {
          if j == |rest| {
            assert r[i] in init;
            var k :| 0 <= k < |init| && init[k] == r[i];
            assert products[k] == r[i];
          } else {
            assert r[i] == rest[i] && r[j] == rest[j];
          }
        }
      }
    }
  }

  /** A page of a newest-first table is newest first. */
  lemma ActivePageIsNewestFirst(products: seq<Product>, page: JsNumber, limit: JsNumber)
    requires ValidPagination(page, limit) && NewestFirst(products)
    ensures NewestFirst(ActivePage(products, page, limit))
  {
    FilterKeepsNewestFirst(products, IsActive);
    var active := Filter(products, IsActive);
    var skip := Skip(page, limit).value;
    var data := ActivePage(products, page, limit);
    forall i, j | 0 <= i < j < |data| ensures data[i].createdAt >= data[j].createdAt {
      assert data[i] == active[skip + i] && data[j] == active[skip + j];
    }
  }

  /** The listing both routers answer with once page and limit are valid: the active page,
      newest first, with a total over the active rows only; the page has rows exactly when it
      is not past `totalPages`. */
  function Listing(products: seq<Product>, page: JsNumber, limit: JsNumber): (l: ProductsListing)
    requires ValidPagination(page, limit)
    ensures l.order == CreatedAtDesc && l.data == ActivePage(products, page, limit)
    ensures l.meta.total == |Filter(products, IsActive)| && l.meta.page == page && l.meta.limit == limit
    ensures l.meta.totalPages.Some? && (|l.data| > 0 <==> page.value <= l.meta.totalPages.value)
  {
    PageHasRowsIffWithinTotalPages(Count(products, IsActive), page, limit);
    ProductsListing(ActivePage(products, page, limit), CreatedAtDesc, Meta(Count(products, IsActive), page, limit))
  }

  /** `GET /api/v1/products`, open to every caller. Page and limit default to 1 and 10 (an
      empty parameter counts as missing); `dbOk` says whether the database calls succeed. */
  function GetProducts(searchParams: map<string, string>, products: seq<Product>, dbOk: bool)
    : (r: Reply<ProductsListing>)
    ensures var page := ParseInt(OrDefault(Get(searchParams, "page"), "1"));
      var limit := ParseInt(OrDefault(Get(searchParams, "limit"), "10"));
      && (!ValidPagination(page, limit) <==> r == Fail(400, InvalidPagination))
      && (ValidPagination(page, limit) && !dbOk ==> r == Fail(500, InternalError))
      && (ValidPagination(page, limit) && dbOk ==> r == Reply(200, Payload(Listing(products, page, limit))))
  {
    var page := ParseInt(OrDefault(Get(searchParams, "page"), "1"));
    var limit := ParseInt(OrDefault(Get(searchParams, "limit"), "10"));
    if !ValidPagination(page, limit) then Fail(400, InvalidPagination)
    else if !dbOk then Fail(500, InternalError)
    else Reply(200, Payload(Listing(products, page, limit)))
  }

  /** The fields of a product-creation body; None for an absent field. */
  datatype ProductBody = ProductBody(name: Option<string>, barCode: Option<string>, price: Option<int>)

  /** A name and a bar code are required and must be non-empty; a price must be present, and
      0 is accepted. */
  predicate HasRequiredFields(b: ProductBody) {
    Truthy(b.name) && Truthy(b.barCode) && b.price.Some?
  }

  /** The row a creation inserts: active, created and last updated by `author`. */
  function NewProduct(b: ProductBody, author: JsNumber, newId: string, now: int): Product
    requires HasRequiredFields(b)
  {
    Product(newId, b.name.value, b.barCode.value, b.price.value, now, Active, author, author)
  }

  /** `POST /api/v1/products`. `body` is None when the request body is not JSON, `newId` and
      `now` the new row's id and creation date. */
  function PostProduct(headers: map<string, string>, body: Option<ProductBody>, products: seq<Product>,
                       dbOk: bool, newId: string, now: int): (r: Handled<Product, seq<Product>>)
    ensures body.None? ==> r == Handled(Fail(500, InternalError), products)
    ensures body.Some? && !HasRequiredFields(body.value) ==> r == Handled(Fail(400, MissingFields), products)
    ensures r.reply.status == 201 <==> body.Some? && HasRequiredFields(body.value) && dbOk
    ensures r.reply.status == 201 ==>
      var added := NewProduct(body.value, Auth.GetAuthenticatedUser(headers).id, newId, now);
      r.reply == Reply(201, Payload(added)) && r.store == products + [added]
    ensures r.reply.status != 201 ==> r.store == products
  {
    var user := Auth.GetAuthenticatedUser(headers);
    if body.None? then Handled(Fail(500, InternalError), products)
    else if !HasRequiredFields(body.value) then Handled(Fail(400, MissingFields), products)
    else if !dbOk then Handled(Fail(500, InternalError), products)
    else
      var newProduct := NewProduct(body.value, user.id, newId, now);
      Handled(Reply(201, Payload(newProduct)), products + [newProduct])
  }

  /** A created product is active, so it adds one to the listing's total, and the caller is
      both its creator and its last editor. */
  lemma CreatedProductIsListed(headers: map<string, string>, body: ProductBody, products: seq<Product>,
                               newId: string, now: int)
    requires HasRequiredFields(body)
    ensures var r := PostProduct(headers, Some(body), products, true, newId, now);
      && Count(r.store, IsActive) == Count(products, IsActive) + 1
      && r.reply.body.value.createdBy == r.reply.body.value.updatedBy == Auth.GetAuthenticatedUser(headers).id
  {
    var r := PostProduct(headers, Some(body), products, true, newId, now);
    CountAppend(products, r.reply.body.value, IsActive);
  }

  /** Inactive products take no place in the listing: only active ones are counted and paged. */
  lemma InactiveProductIsNotListed(products: seq<Product>, p: Product, page: JsNumber, limit: JsNumber)
    requires ValidPagination(page, limit) && !IsActive(p)
    ensures Listing(products + [p], page, limit) == Listing(products, page, limit)
  {
    CountAppend(products, p, IsActive);
    assert (products + [p])[..|products + [p]| - 1] == products;
  }
}

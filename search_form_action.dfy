/** The server action behind the search form: it maps the submitted barcode and the product
    lookup to the status record the form renders. */
module SearchFormAction {
  import opened Js
  import opened Schema

  datatype SearchStatus = DoNothing | Found | NotFound | UseCallback

  datatype CallbackAction = StartSale

  /** The record the action returns. */
  datatype FormState = FormState(
    product: Option<Product>,
    status: SearchStatus,
    callbackActions: Option<CallbackAction>)

  /** `getProductByBarcode` returned a product or nothing, or threw. */
  datatype ProductLookup = Returned(product: Option<Product>) | LookupThrew

  function SearchProduct(barCode: Option<string>, lookup: ProductLookup): (r: FormState)
    ensures r.status == UseCallback <==> !Truthy(barCode)
    ensures r.status == UseCallback ==> r.callbackActions == Some(StartSale) && r.product.None?
    ensures r.status == Found <==> Truthy(barCode) && lookup.Returned? && lookup.product.Some?
    ensures r.status == Found ==> r.product == lookup.product && r.callbackActions.None?
    ensures r.status == NotFound <==>
      Truthy(barCode) && (lookup.LookupThrew? || lookup.product.None?)
    ensures r.status == NotFound ==> r.product.None? && r.callbackActions.None?
    ensures r.status != DoNothing
  {
    if !Truthy(barCode) then FormState(None, UseCallback, Some(StartSale))
    else
      match lookup
      case LookupThrew => FormState(None, NotFound, None)
      case Returned(product) =>
        if product.Some? then FormState(product, Found, None) else FormState(None, NotFound, None)
  }

  /** An empty barcode is answered without looking at the lookup at all. */
  lemma EmptyBarcodeIgnoresLookup(barCode: Option<string>, l1: ProductLookup, l2: ProductLookup)
    requires !Truthy(barCode)
    ensures SearchProduct(barCode, l1) == SearchProduct(barCode, l2)
  {
  }
}

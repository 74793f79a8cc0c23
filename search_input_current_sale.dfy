/** The search input bound to the current sale: it first demands an active sale, then a
    barcode, posts the single match without a quantity field and, on 201, clears the field
    before refetching the current sale. */
module SearchInputCurrentSale {
  import opened Js
  import opened Http
  import opened BarcodeLookup
  import SearchInputApp

  /** `!(currentSale.error || !currentSale.data?.id)` */
  predicate HasActiveSale(saleError: bool, currentSaleId: Option<string>) {
    !saleError && Truthy(currentSaleId)
  }

  function HandleSearchProduct(saleError: bool, currentSaleId: Option<string>, barcode: Option<string>,
                               lookup: Lookup, addResponse: FetchResult): (o: SearchOutcome)
    ensures !HasActiveSale(saleError, currentSaleId) <==> o == Early(NoActiveSale)
    ensures HasActiveSale(saleError, currentSaleId) && !Truthy(barcode) <==> o == Early(EmptyBarcode)
    ensures o.add.Some? <==>
      && HasActiveSale(saleError, currentSaleId) && Truthy(barcode)
      && lookup.Answered? && SearchInputApp.Resolves(lookup.status) && Classify(lookup.data).OneMatch?
    ensures o.add.Some? ==>
      o.add.value == AddItemRequest(currentSaleId.value, Classify(lookup.data).product.id, None)
    ensures o.ending == Rejected(SeveralProducts) ==> o.add.None? && o.lookedUp == barcode
    ensures o.effects != [] <==> o.add.Some? && addResponse == Responded(Created)
    ensures o.effects != [] ==> o.effects == [ClearInput, RefetchCurrentSale] && o.ending == Added
  {
    if saleError || !Truthy(currentSaleId) then Early(NoActiveSale)
    else if !Truthy(barcode) then Early(EmptyBarcode)
    else
      match lookup
      case LookupFailed => AfterLookupOnly(barcode.value, Threw)
      case Answered(status, data) =>
        if !SearchInputApp.Resolves(status) then AfterLookupOnly(barcode.value, Threw)
        else
          match Classify(data)
          case Unreadable => AfterLookupOnly(barcode.value, Threw)
          case SeveralMatches => AfterLookupOnly(barcode.value, Rejected(SeveralProducts))
          case NoMatch => AfterLookupOnly(barcode.value, Threw)
          case OneMatch(firstProduct) =>
            var add := Some(AddItemRequest(currentSaleId.value, firstProduct.id, None));
            match addResponse
            case NetworkError => SearchOutcome(Some(barcode.value), add, [], Threw)
            case Responded(status) =>
              if status == Created then
                SearchOutcome(Some(barcode.value), add, [ClearInput, RefetchCurrentSale], Added)
              else SearchOutcome(Some(barcode.value), add, [], AddRefused)
  }

  function HandleKeyDown(key: string, saleError: bool, currentSaleId: Option<string>, barcode: Option<string>,
                         lookup: Lookup, addResponse: FetchResult): (o: SearchOutcome)
    ensures key != "Enter" ==> o == NoSearch
    ensures key == "Enter" ==> o == HandleSearchProduct(saleError, currentSaleId, barcode, lookup, addResponse)
  {
    if key == "Enter" then HandleSearchProduct(saleError, currentSaleId, barcode, lookup, addResponse) else NoSearch
  }
}

/** The search input of the app-router sale screen. It goes through the axios API client,
    whose requests reject on any status outside 200-299, and it counts an add as done only
    when the answer is exactly 201. */
module SearchInputApp {
  import opened Js
  import opened Http
  import opened BarcodeLookup

  /** An axios call resolves only on a 2xx status. */
  predicate Resolves(status: int) {
    200 <= status <= 299
  }

  function HandleSearchProduct(initialSaleId: string, barcode: Option<string>, lookup: Lookup,
                               addResponse: FetchResult): (o: SearchOutcome)
    ensures !Truthy(barcode) <==> o == Early(EmptyBarcode)
    ensures Truthy(barcode) ==> o.lookedUp == Some(barcode.value)
    ensures o.add.Some? <==>
      Truthy(barcode) && lookup.Answered? && Resolves(lookup.status) && Classify(lookup.data).OneMatch?
    ensures o.add.Some? ==>
      o.add.value == AddItemRequest(initialSaleId, Classify(lookup.data).product.id, Some(1))
    ensures o.ending == Rejected(SeveralProducts) <==>
      Truthy(barcode) && lookup.Answered? && Resolves(lookup.status) && Classify(lookup.data).SeveralMatches?
    ensures o.effects != [] <==> o.add.Some? && addResponse == Responded(Created)
    ensures o.effects != [] ==> o.effects == [Revalidate(initialSaleId), ClearInput] && o.ending == Added
    ensures o.ending == AddRefused <==> o.add.Some? && Ok(addResponse) && addResponse.status != Created
  {
    if !Truthy(barcode) then Early(EmptyBarcode)
    else
      match lookup
      case LookupFailed => AfterLookupOnly(barcode.value, Threw)
      case Answered(status, data) =>
        if !Resolves(status) then AfterLookupOnly(barcode.value, Threw)
        else
          match Classify(data)
          case Unreadable => AfterLookupOnly(barcode.value, Threw)
          case SeveralMatches => AfterLookupOnly(barcode.value, Rejected(SeveralProducts))
          case NoMatch => AfterLookupOnly(barcode.value, Threw)
          case OneMatch(firstProduct) =>
            var add := Some(AddItemRequest(initialSaleId, firstProduct.id, Some(1)));
            match addResponse
            case NetworkError => SearchOutcome(Some(barcode.value), add, [], Threw)
            case Responded(status) =>
              if !Resolves(status) then SearchOutcome(Some(barcode.value), add, [], Threw)
              else if status == Created then
                SearchOutcome(Some(barcode.value), add, [Revalidate(initialSaleId), ClearInput], Added)
              else SearchOutcome(Some(barcode.value), add, [], AddRefused)
  }

  function HandleKeyDown(key: string, initialSaleId: string, barcode: Option<string>, lookup: Lookup,
                         addResponse: FetchResult): (o: SearchOutcome)
    ensures key != "Enter" ==> o == NoSearch
    ensures key == "Enter" ==> o == HandleSearchProduct(initialSaleId, barcode, lookup, addResponse)
  {
    if key == "Enter" then HandleSearchProduct(initialSaleId, barcode, lookup, addResponse) else NoSearch
  }
}

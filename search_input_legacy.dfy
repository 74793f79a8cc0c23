/** The search input of the pages-era sale screen: it looks a barcode up with `fetch`, reads
    the body whatever the status, posts the single match with quantity 1 and, on an ok
    answer, revalidates the sale and clears the field. */
module SearchInputLegacy {
  import opened Js
  import opened Http
  import opened BarcodeLookup

  function HandleSearchProduct(initialSaleId: string, barcode: Option<string>, lookup: Lookup,
                               addResponse: FetchResult): (o: SearchOutcome)
    ensures !Truthy(barcode) <==> o == Early(EmptyBarcode)
    ensures Truthy(barcode) ==> o.lookedUp == Some(barcode.value)
    ensures o.add.Some? <==>
      Truthy(barcode) && lookup.Answered? && Classify(lookup.data).OneMatch?
    ensures o.add.Some? ==>
      o.add.value == AddItemRequest(initialSaleId, Classify(lookup.data).product.id, Some(1))
    ensures o.ending == Rejected(SeveralProducts) <==>
      Truthy(barcode) && lookup.Answered? && Classify(lookup.data).SeveralMatches?
    ensures Truthy(barcode) && lookup.Answered? && lookup.data == Some([]) ==> o.ending == Threw && o.add.None?
    ensures o.effects != [] <==> o.add.Some? && Ok(addResponse)
    ensures o.effects != [] ==> o.effects == [Revalidate(initialSaleId), ClearInput] && o.ending == Added
  {
    if !Truthy(barcode) then Early(EmptyBarcode)
    else
      match lookup
      case LookupFailed => AfterLookupOnly(barcode.value, Threw)
      case Answered(_, data) =>
        match Classify(data)
        case Unreadable => AfterLookupOnly(barcode.value, Threw)
        case SeveralMatches => AfterLookupOnly(barcode.value, Rejected(SeveralProducts))
        case NoMatch => AfterLookupOnly(barcode.value, Threw)
        case OneMatch(firstProduct) =>
          var add := Some(AddItemRequest(initialSaleId, firstProduct.id, Some(1)));
          match addResponse
          case NetworkError => SearchOutcome(Some(barcode.value), add, [], Threw)
          case Responded(_) =>
            if Ok(addResponse) then SearchOutcome(Some(barcode.value), add, [Revalidate(initialSaleId), ClearInput], Added)
            else SearchOutcome(Some(barcode.value), add, [], AddRefused)
  }

  function HandleKeyDown(key: string, initialSaleId: string, barcode: Option<string>, lookup: Lookup,
                         addResponse: FetchResult): (o: SearchOutcome)
    ensures key != "Enter" ==> o == NoSearch
    ensures key == "Enter" ==> o == HandleSearchProduct(initialSaleId, barcode, lookup, addResponse)
  {
    if key == "Enter" then HandleSearchProduct(initialSaleId, barcode, lookup, addResponse) else NoSearch
  }
}

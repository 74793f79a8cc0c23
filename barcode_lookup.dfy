/** What the barcode search inputs have in common: the lookup's answer, how its list of
    matching products is read, and the record of what one search did. */
module BarcodeLookup {
  import opened Js
  import opened Schema

  /** The answer to `GET .../products/code/<barcode>`: a status with the body's `data` field
      (None when the body has no array there), or a rejected promise. */
  datatype Lookup = Answered(status: int, data: Option<seq<Product>>) | LookupFailed

  /** How the handlers read the list of matches. `data.length` on a missing list and
      `data[0].id` on an empty one both throw a TypeError. */
  datatype Matches = Unreadable | NoMatch | SeveralMatches | OneMatch(product: Product)

  function Classify(data: Option<seq<Product>>): (m: Matches)
    ensures m.Unreadable? <==> data.None?
    ensures m.NoMatch? <==> data == Some([])
    ensures m.SeveralMatches? <==> data.Some? && |data.value| > 1
    ensures m.OneMatch? <==> data.Some? && |data.value| == 1
    ensures m.OneMatch? ==> m.product == data.value[0]
  {
    if data.None? then Unreadable
    else if |data.value| > 1 then SeveralMatches
    else if |data.value| == 0 then NoMatch
    else OneMatch(data.value[0])
  }

  /** The body of the request that adds a product to a sale; `quantity` is None when the body
      carries no quantity field. */
  datatype AddItemRequest = AddItemRequest(saleId: string, productId: string, quantity: Option<int>)

  /** What a successful search does after the add: revalidate the sale's cache entry, clear
      the input field, or refetch the current sale. */
  datatype Effect = Revalidate(saleId: string) | ClearInput | RefetchCurrentSale

  datatype Reason = EmptyBarcode | NoActiveSale | SeveralProducts

  /** How the handler ended: the key was not Enter, it returned early, the product was added,
      the add was answered with a failure, or the handler's promise rejected. */
  datatype Ending = Ignored | Rejected(reason: Reason) | Added | AddRefused | Threw

  /** One keystroke's search: the barcode looked up, the add request posted, the effects run
      afterwards, and how it ended. */
  datatype SearchOutcome = SearchOutcome(
    lookedUp: Option<string>,
    add: Option<AddItemRequest>,
    effects: seq<Effect>,
    ending: Ending)

  /** A keystroke other than Enter does nothing. */
  const NoSearch: SearchOutcome := SearchOutcome(None, None, [], Ignored)

  /** An early return before any request. */
  function Early(reason: Reason): SearchOutcome {
    SearchOutcome(None, None, [], Rejected(reason))
  }

  /** The handler stopped after the lookup, without adding. */
  function AfterLookupOnly(barcode: string, ending: Ending): SearchOutcome {
    SearchOutcome(Some(barcode), None, [], ending)
  }
}

/** The pages-era checkout panel: the amount typed into the payment modal is committed with
    Enter, and a later Enter, once the committed amount covers the total and the panel is
    ready, confirms the cash payment and starts a new sale. */
module CheckoutLegacy {
  import opened Js
  import opened Http

  /** `data?.total || 0`: the fetched sale's total, 0 when there is none. */
  function DisplayTotal(saleTotal: Option<int>): (t: int)
    ensures saleTotal.Some? ==> t == saleTotal.value
    ensures saleTotal.None? ==> t == 0
  {
    if saleTotal.Some? then saleTotal.value else 0
  }

  predicate IsAmountValid(amountReceived: int, total: int) {
    amountReceived >= total
  }

  /** The change due: what the amount exceeds the total by, or 0 while it falls short. */
  function Change(amountReceived: int, total: int): (c: int)
    ensures c >= 0
    ensures IsAmountValid(amountReceived, total) ==> total + c == amountReceived
    ensures !IsAmountValid(amountReceived, total) ==> c == 0
  {
    if IsAmountValid(amountReceived, total) then amountReceived - total else 0
  }

  /** The body of `PUT /api/v1/sales/<saleId>`. */
  datatype ConfirmRequest = ConfirmRequest(saleId: string, amountReceived: int, change: int, paymentMethod: string)

  /** What `createInitialSale()` settles to. */
  datatype NewSaleResult = Created(id: string) | NoneReturned | CreateThrew

  /** The id `setInitialSale` receives: `newSale?.id || ""`. */
  function NextSaleId(newSale: NewSaleResult): (id: string)
    requires !newSale.CreateThrew?
    ensures newSale.NoneReturned? ==> id == ""
    ensures newSale.Created? ==> id == newSale.id
  {
    if newSale.Created? then OrDefault(Some(newSale.id), "") else ""
  }

  /** The panel's state; `saleTotal` is the total of the fetched sale, when there is one. The
      amount typed into the input reaches the handlers already read by `parseFloat`, and the
      network's answers are parameters. */
  class CheckoutPanel {
    var saleId: string
    var saleTotal: Option<int>
    var amountReceived: int
    var isReadyToSubmit: bool
    var isModalOpen: bool
    var confirmations: seq<ConfirmRequest>

    constructor (initialSaleId: string, fetchedTotal: Option<int>)
      ensures saleId == initialSaleId && saleTotal == fetchedTotal
      ensures amountReceived == 0 && !isReadyToSubmit && !isModalOpen && confirmations == []
    {
      saleId, saleTotal := initialSaleId, fetchedTotal;
      amountReceived, isReadyToSubmit, isModalOpen, confirmations := 0, false, false, [];
    }

    function Total(): int
      reads this
    {
      DisplayTotal(saleTotal)
    }

    /** `handleConfirmPayment`: nothing is sent while the amount falls short; otherwise the
        amount and change are PUT as a cash payment, and only an ok answer closes the modal,
        zeroes the amount and switches to the newly created sale. */
    method HandleConfirmPayment(response: FetchResult, newSale: NewSaleResult)
      modifies this
      ensures saleTotal == old(saleTotal) && isReadyToSubmit == old(isReadyToSubmit)
      ensures !IsAmountValid(old(amountReceived), old(Total())) ==>
        confirmations == old(confirmations) && amountReceived == old(amountReceived)
        && isModalOpen == old(isModalOpen) && saleId == old(saleId)
      ensures IsAmountValid(old(amountReceived), old(Total())) ==>
        confirmations == old(confirmations) + [ConfirmRequest(old(saleId), old(amountReceived),
          Change(old(amountReceived), old(Total())), "CASH")]
      ensures IsAmountValid(old(amountReceived), old(Total())) && Ok(response) ==>
        !isModalOpen && amountReceived == 0
        && saleId == (if newSale.CreateThrew? then old(saleId) else NextSaleId(newSale))
      ensures !Ok(response) ==>
        isModalOpen == old(isModalOpen) && amountReceived == old(amountReceived) && saleId == old(saleId)
    {
      var total := Total();
      if !IsAmountValid(amountReceived, total) {
        return;
      }
      confirmations := confirmations + [ConfirmRequest(saleId, amountReceived, Change(amountReceived, total), "CASH")];
      if Ok(response) {
        isModalOpen := false;
        amountReceived := 0;
        if !newSale.CreateThrew? {
          saleId := NextSaleId(newSale);
        }
      }
    }

    /** `handleOnKeyUp`. Enter commits the typed amount (NaN as 0); the readiness and the
        confirmation are decided on the amount committed by the previous Enter, so becoming
        ready and confirming take one Enter each. Any other key clears readiness. */
    method HandleOnKeyUp(key: string, entered: JsNumber, response: FetchResult, newSale: NewSaleResult)
      modifies this
      ensures saleTotal == old(saleTotal)
      ensures key != "Enter" ==>
        !isReadyToSubmit && amountReceived == old(amountReceived) && confirmations == old(confirmations)
        && isModalOpen == old(isModalOpen) && saleId == old(saleId)
      ensures key == "Enter" && !IsAmountValid(old(amountReceived), old(Total())) ==>
        && amountReceived == (if entered.NaN? then 0 else entered.value)
        && isReadyToSubmit == old(isReadyToSubmit) && confirmations == old(confirmations)
        && isModalOpen == old(isModalOpen) && saleId == old(saleId)
      ensures key == "Enter" && IsAmountValid(old(amountReceived), old(Total())) ==> isReadyToSubmit
      ensures key == "Enter" && IsAmountValid(old(amountReceived), old(Total())) && !old(isReadyToSubmit) ==>
        && amountReceived == (if entered.NaN? then 0 else entered.value)
        && confirmations == old(confirmations) && isModalOpen == old(isModalOpen) && saleId == old(saleId)
      ensures key == "Enter" && IsAmountValid(old(amountReceived), old(Total())) && old(isReadyToSubmit) ==>
        && confirmations == old(confirmations) + [ConfirmRequest(old(saleId), old(amountReceived),
             Change(old(amountReceived), old(Total())), "CASH")]
        && amountReceived == (if Ok(response) then 0 else if entered.NaN? then 0 else entered.value)
        && isModalOpen == (if Ok(response) then false else old(isModalOpen))
        && saleId == (if Ok(response) && !newSale.CreateThrew? then NextSaleId(newSale) else old(saleId))
    {
      if key == "Enter" {
        var value := entered;
        // The handler reads the state of the render it was created in.
        var wasValid := IsAmountValid(amountReceived, Total());
        var wasReady := isReadyToSubmit;
        var committed := if value.NaN? then 0 else value.value;
        if wasReady && wasValid {
          HandleConfirmPayment(response, newSale);
          // setAmountReceived(value) was queued before the confirmation's own updates.
          if !Ok(response) {
            amountReceived := committed;
          }
        } else {
          amountReceived := committed;
        }
        if wasValid {
          isReadyToSubmit := true;
        }
      } else {
        isReadyToSubmit := false;
      }
    }

    /** The "Cobrar" button. */
    method OpenModal()
      modifies this
      ensures isModalOpen
      ensures amountReceived == old(amountReceived) && isReadyToSubmit == old(isReadyToSubmit)
      ensures saleId == old(saleId) && saleTotal == old(saleTotal) && confirmations == old(confirmations)
    {
      isModalOpen := true;
    }

    /** Closing the modal discards the committed amount. */
    method OnClose()
      modifies this
      ensures !isModalOpen && amountReceived == 0
      ensures isReadyToSubmit == old(isReadyToSubmit)
      ensures saleId == old(saleId) && saleTotal == old(saleTotal) && confirmations == old(confirmations)
    {
      isModalOpen := false;
      amountReceived := 0;
    }
  }

  /** With a positive total, a cashier who types an amount that covers it and presses Enter
      three times sends the payment on the third press, and sends it once. */
  method EnterThreeTimes(saleId: string, total: int, amount: int, newSaleId: string)
    returns (sentAfterFirst: nat, sentAfterSecond: nat, sentAfterThird: nat)
    requires 0 < total <= amount
    ensures sentAfterFirst == 0 && sentAfterSecond == 0 && sentAfterThird == 1
  {
    var panel := new CheckoutPanel(saleId, Some(total));
    panel.OpenModal();
    panel.HandleOnKeyUp("Enter", Int(amount), Responded(200), Created(newSaleId));
    sentAfterFirst := |panel.confirmations|;
    panel.HandleOnKeyUp("Enter", Int(amount), Responded(200), Created(newSaleId));
    sentAfterSecond := |panel.confirmations|;
    panel.HandleOnKeyUp("Enter", Int(amount), Responded(200), Created(newSaleId));
    sentAfterThird := |panel.confirmations|;
  }

  /** When nothing is owed (no sale fetched, or a zero total), the second Enter already sends
      the payment. */
  method EnterTwiceWithNothingOwed(saleId: string, amount: int, newSaleId: string)
    returns (sentAfterFirst: nat, sentAfterSecond: nat)
    requires amount >= 0
    ensures sentAfterFirst == 0 && sentAfterSecond == 1
  {
    var panel := new CheckoutPanel(saleId, None);
    panel.OpenModal();
    panel.HandleOnKeyUp("Enter", Int(amount), Responded(200), Created(newSaleId));
    sentAfterFirst := |panel.confirmations|;
    panel.HandleOnKeyUp("Enter", Int(amount), Responded(200), Created(newSaleId));
    sentAfterSecond := |panel.confirmations|;
  }
}

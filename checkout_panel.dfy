/** The app-router checkout panel. The amount, the change and the lines live in the cart
    store; the panel keeps whether the cashier has confirmed an amount that covers the total,
    whether the payment modal is open, how often its keyup handler has asked the form to
    submit, and the amounts the browser has submitted the form with on its own. */
module CheckoutPanel {
  import opened Js
  import opened Schema
  import opened Cart

  /** The server action's last answer. */
  datatype PaymentStatus = Idle | Success | Failure

  class CheckoutActions {
    const store: SalesStore
    var isReadyToSubmit: bool
    var isModalOpen: bool
    var submitRequests: nat
    var implicitSubmissions: seq<JsNumber>

    ghost predicate Valid()
      reads this, store
    {
      store.Valid()
    }

    constructor (salesStore: SalesStore)
      requires salesStore.Valid()
      ensures Valid() && store == salesStore
      ensures !isReadyToSubmit && !isModalOpen && submitRequests == 0 && implicitSubmissions == []
    {
      store := salesStore;
      isReadyToSubmit, isModalOpen, submitRequests := false, false, 0;
      implicitSubmissions := [];
    }

    /** The submit button is enabled only when the panel is ready and nothing is pending. */
    predicate SubmitEnabled(isPending: bool)
      reads this
    {
      isReadyToSubmit && !isPending
    }

    /** The key press of Enter in the amount input, before its keyup. The input sits in a form
        whose only submit button is enabled exactly when `SubmitEnabled`, so by the implicit
        submission of section 4.10.21.2 of the HTML Living Standard the browser submits the form,
        with the amount as typed (`typed`), exactly when that button is enabled. */
    method EnterKeyDown(typed: JsNumber, isPending: bool)
      requires Valid()
      modifies this
      ensures Valid()
      ensures implicitSubmissions == old(implicitSubmissions) + (if old(SubmitEnabled(isPending)) then [typed] else [])
      ensures isReadyToSubmit == old(isReadyToSubmit) && isModalOpen == old(isModalOpen)
      ensures submitRequests == old(submitRequests)
    {
      if SubmitEnabled(isPending) {
        implicitSubmissions := implicitSubmissions + [typed];
      }
    }

    /** `handleOnKeyUp`; `entered` is `parseFloat` of the input (an empty input reads as 0),
        `hasForm` whether the input sits in a form, `isPending` whether a submission runs.
        Delete and Backspace reset the amount, the change and readiness. Enter records the
        amount (NaN as 0); when it covers the total the panel becomes ready with change equal
        to the excess, and the form is submitted if the panel was already ready. */
    method HandleOnKeyUp(key: string, entered: JsNumber, hasForm: bool, isPending: bool)
      requires Valid()
      modifies this, store
      ensures Valid()
      ensures store.sales == old(store.sales) && store.total == old(store.total)
      ensures store.paymentMethod == old(store.paymentMethod) && isModalOpen == old(isModalOpen)
      ensures implicitSubmissions == old(implicitSubmissions)
      ensures key == "Delete" || key == "Backspace" ==>
        && !isReadyToSubmit && store.amountReceived == 0 && store.change == 0
        && submitRequests == old(submitRequests)
      ensures key == "Enter" ==> store.amountReceived == (if entered.NaN? then 0 else entered.value)
      ensures key == "Enter" && entered.Int? && entered.value >= store.total ==>
        && isReadyToSubmit && store.change == entered.value - store.total
        && submitRequests == old(submitRequests) + (if hasForm && !isPending && old(isReadyToSubmit) then 1 else 0)
      ensures key == "Enter" && !(entered.Int? && entered.value >= store.total) ==>
        isReadyToSubmit == old(isReadyToSubmit) && store.change == old(store.change)
        && submitRequests == old(submitRequests)
      ensures key != "Enter" && key != "Delete" && key != "Backspace" ==>
        && isReadyToSubmit == old(isReadyToSubmit) && submitRequests == old(submitRequests)
        && store.amountReceived == old(store.amountReceived) && store.change == old(store.change)
    {
      if key == "Delete" || key == "Backspace" {
        isReadyToSubmit := false;
        store.SetAmountReceived(0);
        store.SetChange(0);
        return;
      }
      if key == "Enter" {
        var value := entered;
        store.SetAmountReceived(if value.NaN? then 0 else value.value);
        if value.Int? && value.value >= store.total {
          var wasReady := isReadyToSubmit;
          isReadyToSubmit := true;
          store.SetChange(value.value - store.total);
          if hasForm && !isPending && wasReady {
            submitRequests := submitRequests + 1;
          }
        }
      }
    }

    /** The effect on a successful payment: the sale is cleared, the modal closed and the
        amount, change and readiness reset; any other status changes nothing. */
    method OnPaymentState(status: PaymentStatus)
      requires Valid()
      modifies this, store
      ensures Valid()
      ensures submitRequests == old(submitRequests) && implicitSubmissions == old(implicitSubmissions)
      ensures status == Success ==>
        && store.sales == [] && store.total == 0 && store.amountReceived == 0 && store.change == 0
        && !isModalOpen && !isReadyToSubmit && store.paymentMethod == old(store.paymentMethod)
      ensures status != Success ==>
        && store.sales == old(store.sales) && store.total == old(store.total)
        && store.amountReceived == old(store.amountReceived) && store.change == old(store.change)
        && isModalOpen == old(isModalOpen) && isReadyToSubmit == old(isReadyToSubmit)
        && store.paymentMethod == old(store.paymentMethod)
    {
      if status == Success {
        store.ClearSale();
        isModalOpen := false;
        isReadyToSubmit := false;
        store.SetAmountReceived(0);
        store.SetChange(0);
      }
    }

    /** The "Cobrar" button. */
    method OpenModal()
      requires Valid()
      modifies this
      ensures Valid() && isModalOpen
      ensures isReadyToSubmit == old(isReadyToSubmit) && submitRequests == old(submitRequests)
      ensures implicitSubmissions == old(implicitSubmissions)
    {
      isModalOpen := true;
    }

    /** Closing the modal discards the amount; readiness and change are kept. */
    method OnClose()
      requires Valid()
      modifies this, store
      ensures Valid() && !isModalOpen && store.amountReceived == 0
      ensures store.sales == old(store.sales) && store.total == old(store.total)
      ensures store.change == old(store.change) && store.paymentMethod == old(store.paymentMethod)
      ensures isReadyToSubmit == old(isReadyToSubmit) && submitRequests == old(submitRequests)
      ensures implicitSubmissions == old(implicitSubmissions)
    {
      isModalOpen := false;
      store.SetAmountReceived(0);
    }
  }

  /** Entering an amount that covers the total makes the panel ready and submits nothing; on
      the next Enter the browser submits the form on the key press and the keyup handler then
      asks for a second submission. Whether that second request reaches the server action
      depends on when React renders `isPending`, which is not modelled. */
  method SecondEnterSubmits(product: Product, amount: int)
    returns (readyAfterFirst: bool, submittedAfterFirst: nat, implicitAfterSecond: seq<JsNumber>,
             requestsAfterSecond: nat)
    requires amount >= product.price
    ensures readyAfterFirst && submittedAfterFirst == 0
    ensures implicitAfterSecond == [Int(amount)] && requestsAfterSecond == 1
  {
    var store := new SalesStore();
    store.AddItemToSale(product, "k2j4h1x0a");
    assert store.total == product.price by {
      SumSingleton(NewItem(product, "k2j4h1x0a"), Subtotal);
    }
    var panel := new CheckoutActions(store);
    panel.OpenModal();
    panel.EnterKeyDown(Int(amount), false);
    panel.HandleOnKeyUp("Enter", Int(amount), true, false);
    readyAfterFirst := panel.isReadyToSubmit;
    submittedAfterFirst := panel.submitRequests + |panel.implicitSubmissions|;
    panel.EnterKeyDown(Int(amount), false);
    panel.HandleOnKeyUp("Enter", Int(amount), true, false);
    implicitAfterSecond, requestsAfterSecond := panel.implicitSubmissions, panel.submitRequests;
  }

  /** After an amount that covers the total, an Enter on a short amount leaves the submit
      button enabled, so the browser submits the form with that short amount, and afterwards
      the recorded amount no longer covers the total while the button stays enabled. */
  method ShortAmountIsSubmitted(product: Product, enough: int, short: int)
    returns (implicit: seq<JsNumber>, enabled: bool, amountReceived: int, total: int)
    requires enough >= product.price > short
    ensures implicit == [Int(short)] && short < total
    ensures enabled && amountReceived == short && total == product.price
  {
    var store := new SalesStore();
    store.AddItemToSale(product, "k2j4h1x0a");
    assert store.total == product.price by {
      SumSingleton(NewItem(product, "k2j4h1x0a"), Subtotal);
    }
    var panel := new CheckoutActions(store);
    panel.OpenModal();
    panel.EnterKeyDown(Int(enough), false);
    panel.HandleOnKeyUp("Enter", Int(enough), true, false);
    panel.EnterKeyDown(Int(short), false);
    panel.HandleOnKeyUp("Enter", Int(short), true, false);
    implicit := panel.implicitSubmissions;
    enabled := panel.SubmitEnabled(false);
    amountReceived, total := store.amountReceived, store.total;
  }
}

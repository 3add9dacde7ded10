/**
  The balance top-up screen that pays inside an embedded web view
  (app/CheckoutProCargarSaldo.jsx): the amount is checked, a payment preference is requested,
  the web view is opened on the payment address, and the addresses the web view visits are
  classified to detect how the payment ended. `parseFloat(monto)` and the awaited request are
  parameters of the handler.
*/
module CheckoutProCargarSaldo {
  import opened Wrappers
  import opened Text
  import opened Deposit

  const DefaultError := "No se pudo crear la preferencia de pago"
  const RejectedAlert := Alert("Pago Rechazado", "El pago fue rechazado. Intenta nuevamente.")
  const PendingAlert := Alert("Pago Pendiente", "Tu pago está siendo procesado. Te notificaremos cuando se acredite.")

  /** `handlePaymentSuccess`: the dialog quotes the amount as typed. */
  function SuccessAlert(monto: string): (a: Alert)
    ensures a.title == "Pago Exitoso" && Contains(a.message, monto)
  {
    var before := "Se procesó tu pago de $";
    var after := ". El saldo se acreditará automáticamente cuando MercadoPago confirme la transacción.";
    ContainsInfix(before, monto, after);
    Alert("Pago Exitoso", before + monto + after)
  }

  /** `response.sandbox_init_point || response.init_point`: the sandbox address when it is
      truthy, otherwise the production one, which may be missing. */
  function CheckoutUrl(p: PreferenceResponse): (r: Option<string>)
    ensures Truthy(p.sandboxInitPoint) ==> r == p.sandboxInitPoint
    ensures !Truthy(p.sandboxInitPoint) ==> r == p.initPoint
  {
    if Truthy(p.sandboxInitPoint) then p.sandboxInitPoint else p.initPoint
  }

  /** How a page visited by the web view ends the payment, if it does. */
  datatype PaymentReturn = Approved | Rejected | Pending | StillPaying

  /** The classification of `handleWebViewNavigationStateChange`, in its priority order. */
  function ClassifyReturnUrl(url: string): (r: PaymentReturn)
    ensures r == Approved <==> Contains(url, "payment/success") || Contains(url, "approved")
    ensures r == Rejected <==>
              !(Contains(url, "payment/success") || Contains(url, "approved"))
              && (Contains(url, "payment/failure") || Contains(url, "rejected"))
    ensures r == Pending <==>
              !(Contains(url, "payment/success") || Contains(url, "approved"))
              && !(Contains(url, "payment/failure") || Contains(url, "rejected"))
              && Contains(url, "payment/pending")
  {
    if Contains(url, "payment/success") || Contains(url, "approved") then Approved
    else if Contains(url, "payment/failure") || Contains(url, "rejected") then Rejected
    else if Contains(url, "payment/pending") then Pending
    else StillPaying
  }

  /** The approved patterns win: an address that mentions both 'approved' and 'rejected' is
      an approval. */
  lemma ApprovedWins(a: string, b: string, c: string)
    ensures ClassifyReturnUrl(a + "approved" + b + "rejected" + c) == Approved
  {
    var url := a + "approved" + b + "rejected" + c;
    assert url == a + "approved" + (b + "rejected" + c);
    ContainsInfix(a, "approved", b + "rejected" + c);
  }

  /** An address that contains none of the five patterns leaves the payment open. */
  lemma OtherPagesKeepPaying(url: string)
    requires !Contains(url, "payment/success") && !Contains(url, "approved")
    requires !Contains(url, "payment/failure") && !Contains(url, "rejected")
    requires !Contains(url, "payment/pending")
    ensures ClassifyReturnUrl(url) == StillPaying
  {
  }

  /** An address of the payment page itself. */
  const CheckoutPage := "https://www.mercadopago" + ".com.ar/checkout" + "/redirect?pref_id=123"

  /** The payment page has no 'y' (which every 'payment/...' pattern has), no 'v' (which
      'approved' has) and no 'j' (which 'rejected' has). */
  lemma CheckoutPageLacks(c: char)
    requires c == 'y' || c == 'v' || c == 'j'
    ensures c !in CheckoutPage
  {
    assert c !in "https://www.mercadopago";
    assert c !in ".com.ar/checkout";
    assert c !in "/redirect?pref_id=123";
  }

  /** Visiting the payment page leaves the payment open. */
  lemma CheckoutPageKeepsPaying()
    ensures ClassifyReturnUrl(CheckoutPage) == StillPaying
  {
    CheckoutPageLacks('y');
    CheckoutPageLacks('v');
    CheckoutPageLacks('j');
    NotContainsWithoutChar(CheckoutPage, "payment/success", 'y');
    NotContainsWithoutChar(CheckoutPage, "approved", 'v');
    NotContainsWithoutChar(CheckoutPage, "payment/failure", 'y');
    NotContainsWithoutChar(CheckoutPage, "rejected", 'j');
    NotContainsWithoutChar(CheckoutPage, "payment/pending", 'y');
    OtherPagesKeepPaying(CheckoutPage);
  }

  class Screen {
    var monto: string
    var loading: bool
    var showWebView: bool
    /** The address the web view shows; `None` when the response had no payment address. */
    var checkoutUrl: Option<string>
    var transactionId: Option<string>
    /** The dialog on screen, if any. */
    var alert: Option<Alert>
    /** The amounts posted to `/wallet/create-preference`, oldest first. */
    var requests: seq<real>

    constructor()
      ensures monto == "" && !loading && !showWebView && checkoutUrl == Some("")
      ensures transactionId == None && alert == None && requests == []
    {
      monto, loading, showWebView, checkoutUrl := "", false, false, Some("");
      transactionId, alert, requests := None, None, [];
    }

    /** `handleMontoRapido(amount)` */
    method HandleMontoRapido(amount: nat)
      modifies this
      ensures monto == NatToString(amount)
      ensures loading == old(loading) && showWebView == old(showWebView) && checkoutUrl == old(checkoutUrl)
      ensures transactionId == old(transactionId) && alert == old(alert) && requests == old(requests)
    {
      monto := NatToString(amount);
    }

    /** `handleCreatePreference`, given `parseFloat(monto)` and how the request ends. The web
        view opens only after the request succeeds; a rejected amount returns before the `try`
        and changes nothing but the dialog. */
    method HandleCreatePreference(amount: Option<real>, response: Outcome<PreferenceResponse>)
      modifies this
      ensures monto == old(monto)
      ensures ValidateMonto(amount).Some? ==>
                && alert == Some(Alert("Error", ValidateMonto(amount).value))
                && loading == old(loading) && showWebView == old(showWebView) && checkoutUrl == old(checkoutUrl)
                && transactionId == old(transactionId) && requests == old(requests)
      ensures ValidateMonto(amount).None? ==> !loading && requests == old(requests) + [amount.value]
      ensures ValidateMonto(amount).None? && response.Done? ==>
                && showWebView && checkoutUrl == CheckoutUrl(response.value)
                && transactionId == response.value.transactionId && alert == old(alert)
      ensures ValidateMonto(amount).None? && response.Threw? ==>
                && alert == Some(Alert("Error", if response.message != "" then response.message else DefaultError))
                && showWebView == old(showWebView) && checkoutUrl == old(checkoutUrl)
                && transactionId == old(transactionId)
    {
      var rejection := ValidateMonto(amount);
      if rejection.Some? {
        alert := Some(Alert("Error", rejection.value));
        return;
      }
      loading := true;
      requests := requests + [amount.value];
      if response.Done? {
        transactionId := response.value.transactionId;
        checkoutUrl := CheckoutUrl(response.value);
        showWebView := true;
      } else {
        alert := Some(Alert("Error", if response.message != "" then response.message else DefaultError));
      }
      loading := false;
    }

    /** `handleWebViewNavigationStateChange`: a recognised return address closes the web view
        and shows its dialog; any other address changes nothing. */
    method HandleWebViewNavigationStateChange(url: string)
      modifies this
      ensures ClassifyReturnUrl(url) == StillPaying ==>
                showWebView == old(showWebView) && alert == old(alert)
      ensures ClassifyReturnUrl(url) != StillPaying ==> !showWebView
      ensures ClassifyReturnUrl(url) == Approved ==> alert == Some(SuccessAlert(monto))
      ensures ClassifyReturnUrl(url) == Rejected ==> alert == Some(RejectedAlert)
      ensures ClassifyReturnUrl(url) == Pending ==> alert == Some(PendingAlert)
      ensures monto == old(monto) && loading == old(loading) && checkoutUrl == old(checkoutUrl)
      ensures transactionId == old(transactionId) && requests == old(requests)
    {
      match ClassifyReturnUrl(url)
      case Approved =>
        showWebView := false;
        alert := Some(SuccessAlert(monto));
      case Rejected =>
        showWebView := false;
        alert := Some(RejectedAlert);
      case Pending =>
        showWebView := false;
        alert := Some(PendingAlert);
      case StillPaying =>
    }

    /** The close button of the web view. */
    method HandleClose()
      modifies this
      ensures !showWebView
      ensures monto == old(monto) && loading == old(loading) && checkoutUrl == old(checkoutUrl)
      ensures transactionId == old(transactionId) && alert == old(alert) && requests == old(requests)
    {
      showWebView := false;
    }
  }
}

/**
  The balance top-up screen that pays in the device's browser
  (app/ExternalBrowserCargarSaldo.jsx): the amount is checked, a payment preference is
  requested, its response is checked, and the payment page is opened or its address shown.
  `parseFloat(monto)`, the awaited request and whether the browser opens the page are
  parameters of the handler.
*/
module ExternalBrowserCargarSaldo {
  import opened Wrappers
  import opened Text
  import opened Deposit

  const NoPaymentUrl := "No se pudo obtener la URL de pago de MercadoPago"
  const DefaultError := "No se pudo crear la preferencia de pago"
  const ConfigError := "Error de configuración de MercadoPago. Verificar credenciales de testing."
  const RedirectedAlert := Alert("Redirigido a MercadoPago",
    "Completa el pago en tu navegador. Una vez finalizado, regresa a la app para ver tu saldo actualizado.")

  /** The dialog offering the address to copy when the browser could not open it. */
  function FallbackAlert(url: string): (a: Alert)
    ensures a.title == "Ir a MercadoPago" && Contains(a.message, url)
  {
    var prefix := "No se pudo abrir automáticamente. Copia esta URL en tu navegador:\n\n";
    ContainsInfix(prefix, url, "");
    assert prefix + url + "" == prefix + url;
    Alert("Ir a MercadoPago", prefix + url)
  }

  /** The checks of the preference response inside the `try`: the payment address, or the
      message of the error thrown (a failed request's own message, the response's `error`
      field when its status is 'error', or the missing-address message). */
  function PaymentUrl(response: Outcome<PreferenceResponse>): (r: Outcome<string>)
    ensures r.Done? <==> response.Done? && response.value.status != Some("error") && Truthy(response.value.initPoint)
    ensures r.Done? ==> r.value == response.value.initPoint.value && r.value != ""
    ensures response.Threw? ==> r == Threw(response.message)
    ensures response.Done? && response.value.status == Some("error") ==> r == Threw(response.value.error.GetOr(""))
    ensures response.Done? && response.value.status != Some("error") && !Truthy(response.value.initPoint) ==>
              r == Threw(NoPaymentUrl)
  {
    match response
    case Threw(m) => Threw(m)
    case Done(p) =>
      if p.status == Some("error") then Threw(p.error.GetOr(""))
      else if !Truthy(p.initPoint) then Threw(NoPaymentUrl)
      else Done(p.initPoint.value)
  }

  /** The message of the outer `catch` block's alert. */
  function ErrorAlertMessage(m: string): (r: string)
    ensures Contains(m, "invalid_token") ==> r == ConfigError
    ensures !Contains(m, "invalid_token") && m != "" ==> r == m
    ensures m == "" ==> r == DefaultError
    ensures r != ""
  {
    if Contains(m, "invalid_token") then ConfigError
    else if m != "" then m
    else DefaultError
  }

  /** A response with status 'error' and no `error` field ends in the default message. */
  lemma ErrorStatusWithoutMessage(p: PreferenceResponse)
    requires p.status == Some("error") && p.error == None
    ensures var r := PaymentUrl(Done(p)); r.Threw? && ErrorAlertMessage(r.message) == DefaultError
  {
  }

  class Screen {
    var monto: string
    var loading: bool
    /** The dialog on screen, if any. */
    var alert: Option<Alert>
    /** The amounts posted to `/wallet/create-preference`, oldest first. */
    var requests: seq<real>
    /** The payment pages opened in the browser, oldest first. */
    var pagesOpened: seq<string>

    constructor()
      ensures monto == "" && !loading && alert == None && requests == [] && pagesOpened == []
    {
      monto, loading, alert, requests, pagesOpened := "", false, None, [], [];
    }

    /** `handleMontoRapido(amount)` */
    method HandleMontoRapido(amount: nat)
      modifies this
      ensures monto == NatToString(amount)
      ensures loading == old(loading) && alert == old(alert) && requests == old(requests) && pagesOpened == old(pagesOpened)
    {
      monto := NatToString(amount);
    }

    /** `handleCreatePreference`, given `parseFloat(monto)`, how the request ends and whether
        the browser opens the page. A rejected amount returns before the `try`, so it neither
        posts nor touches the loading flag; every other path ends with it cleared. */
    method HandleCreatePreference(amount: Option<real>, response: Outcome<PreferenceResponse>, browserOpens: bool)
      modifies this
      ensures monto == old(monto)
      ensures ValidateMonto(amount).Some? ==>
                && alert == Some(Alert("Error", ValidateMonto(amount).value))
                && loading == old(loading) && requests == old(requests) && pagesOpened == old(pagesOpened)
      ensures ValidateMonto(amount).None? ==> !loading && requests == old(requests) + [amount.value]
      ensures ValidateMonto(amount).None? && PaymentUrl(response).Threw? ==>
                alert == Some(Alert("Error", ErrorAlertMessage(PaymentUrl(response).message))) && pagesOpened == old(pagesOpened)
      ensures ValidateMonto(amount).None? && PaymentUrl(response).Done? && browserOpens ==>
                alert == Some(RedirectedAlert) && pagesOpened == old(pagesOpened) + [PaymentUrl(response).value]
      ensures ValidateMonto(amount).None? && PaymentUrl(response).Done? && !browserOpens ==>
                alert == Some(FallbackAlert(PaymentUrl(response).value)) && pagesOpened == old(pagesOpened)
    {
      var rejection := ValidateMonto(amount);
      if rejection.Some? {
        alert := Some(Alert("Error", rejection.value));
        return;
      }
      loading := true;
      requests := requests + [amount.value];
      var url := PaymentUrl(response);
      if url.Threw? {
        alert := Some(Alert("Error", ErrorAlertMessage(url.message)));
      } else if browserOpens {
        pagesOpened := pagesOpened + [url.value];
        alert := Some(RedirectedAlert);
      } else {
        alert := Some(FallbackAlert(url.value));
      }
      loading := false;
    }
  }
}

/**
  The crypto purchase screen (app/BuyCrypto.jsx): the preview of how much crypto an amount
  buys, the purchase check `validateCompra`, the balance-percentage buttons, the buy-button
  rule, and the handlers around the price and purchase requests. `parseFloat` is not
  modelled: a parsed amount is an `Option<real>`, `None` standing for NaN. The four-decimal
  rendering of the preview (`toFixed(4)`) is not modelled either: the preview is the exact
  quotient.
*/
module BuyCrypto {
  import opened Wrappers
  import opened Text

  const DefaultBalance: real := 0.0
  const DefaultPrice: real := 25.0
  const MinPurchase: real := 100.0

  const InvalidAmount := "Por favor ingrese un monto válido"
  const BelowMinimum := "El monto mínimo para comprar crypto es $100"
  const InsufficientBalance := "Saldo insuficiente"
  const PurchaseFailed := "No se pudo completar la compra"

  /** The percentages offered by the quick buttons. */
  const Percentages: seq<nat> := [25, 50, 75, 100]

  /** `const { saldoPesos = 0, precioCrypto = 25 } = route.params || {}`: a parameter that is
      missing takes its default. */
  function RouteDefaults(saldo: Option<real>, precio: Option<real>): (r: (real, real))
    ensures r.0 == (if saldo.Some? then saldo.value else DefaultBalance)
    ensures r.1 == (if precio.Some? then precio.value else DefaultPrice)
  {
    (saldo.GetOr(DefaultBalance), precio.GetOr(DefaultPrice))
  }

  /** `calculateCrypto()`: the amount divided by the price when both are positive, else 0. */
  function CryptoAmount(monto: Option<real>, price: Option<real>): (r: real)
    ensures r >= 0.0
    ensures monto.Some? && monto.value > 0.0 && price.Some? && price.value > 0.0 ==>
              r > 0.0 && r * price.value == monto.value
    ensures !(monto.Some? && monto.value > 0.0 && price.Some? && price.value > 0.0) ==> r == 0.0
  {
    if monto.Some? && monto.value > 0.0 && price.Some? && price.value > 0.0 then monto.value / price.value
    else 0.0
  }

  /** `validateCompra()`: `None` when the purchase may go ahead, otherwise the message of the
      first check that rejects it. */
  function ValidateCompra(monto: Option<real>, saldo: real): (r: Option<string>)
    ensures r.None? <==> monto.Some? && MinPurchase <= monto.value <= saldo
    ensures (monto.None? || monto.value <= 0.0) ==> r == Some(InvalidAmount)
    ensures monto.Some? && 0.0 < monto.value < MinPurchase ==> r == Some(BelowMinimum)
    ensures monto.Some? && MinPurchase <= monto.value && monto.value > saldo ==> r == Some(InsufficientBalance)
  {
    match monto
    case None => Some(InvalidAmount)
    case Some(v) =>
      if v <= 0.0 then Some(InvalidAmount)
      else if v < MinPurchase then Some(BelowMinimum)
      else if v > saldo then Some(InsufficientBalance)
      else None
  }

  /** There is no upper cap besides the balance, and a balance below the minimum (the default
      balance 0 among them) rejects every purchase. */
  lemma PurchaseBounds(monto: Option<real>, saldo: real)
    ensures saldo < MinPurchase ==> ValidateCompra(monto, saldo).Some?
    ensures ValidateCompra(Some(saldo), saldo).None? <==> saldo >= MinPurchase
  {
  }

  /** `x.toFixed(0)` read back as a number: the nearest integer, halves away from zero. */
  function RoundHalfAwayFromZero(x: real): (n: int)
    ensures x >= 0.0 ==> (n as real) - 0.5 <= x < (n as real) + 0.5
    ensures x < 0.0 ==> (n as real) - 0.5 < x <= (n as real) + 0.5
  {
    if x >= 0.0 then (x + 0.5).Floor else -((-x + 0.5).Floor)
  }

  /** `handleMontoRapido(percentage)` as written: the share of the balance rounded to the
      nearest integer. */
  function QuickAmountAsWritten(saldo: real, percentage: nat): (n: int)
    ensures saldo >= 0.0 ==> n >= 0
    ensures saldo >= 0.0 ==> (n as real) - 0.5 <= saldo * (percentage as real) / 100.0
  {
    RoundHalfAwayFromZero(saldo * (percentage as real) / 100.0)
  }

  /** Rounding up can overshoot: with a balance of 150.5 the 100% button asks for 151, which
      `validateCompra` refuses for want of balance and the buy button is disabled for. */
  lemma QuickAmountAsWrittenOvershoots()
    ensures QuickAmountAsWritten(150.5, 100) == 151
    ensures ValidateCompra(Some(151.0), 150.5) == Some(InsufficientBalance)
  {
    assert 150.5 * (100 as real) / 100.0 == 150.5;
  }

  /** The quick amount as evidently intended: the share of the balance rounded down, so that
      the button never asks for more than the balance holds. */
  function QuickAmount(saldo: real, percentage: nat): (n: int)
    ensures saldo >= 0.0 ==> 0 <= n
    ensures (n as real) <= saldo * (percentage as real) / 100.0 < (n as real) + 1.0
  {
    (saldo * (percentage as real) / 100.0).Floor
  }

  /** Every quick button stays within the balance, and with a balance of at least the minimum
      the 100% button asks for an amount `validateCompra` accepts. */
  lemma QuickAmountWithinBalance(saldo: real, i: nat)
    requires saldo >= 0.0 && i < |Percentages|
    ensures 0 <= QuickAmount(saldo, Percentages[i]) && QuickAmount(saldo, Percentages[i]) as real <= saldo
    ensures saldo >= MinPurchase ==> ValidateCompra(Some(QuickAmount(saldo, 100) as real), saldo).None?
  {
    var p := Percentages[i] as real;
    assert p <= 100.0;
    assert saldo * p / 100.0 <= saldo;
    var full := QuickAmount(saldo, 100);
    assert saldo * (100 as real) / 100.0 == saldo;
    assert (full as real) + 1.0 > saldo;
    if saldo >= MinPurchase {
      assert (full as real) > 99.0;
      assert full >= 100;
    }
  }

  /** The buy button's enablement: a non-empty amount, no request in flight, and an amount
      that is not known to exceed the balance (NaN does not exceed it). */
  function BuyEnabled(montoText: string, monto: Option<real>, loading: bool, saldo: real): (r: bool)
    ensures r ==> montoText != "" && !loading
    ensures r && monto.Some? ==> monto.value <= saldo
  {
    !(montoText == "" || loading || (monto.Some? && monto.value > saldo))
  }

  /** The button never blocks a purchase `validateCompra` would accept; it does let through
      amounts the check then refuses, such as one below the minimum. */
  lemma BuyEnabledVersusValidate(montoText: string, monto: Option<real>, saldo: real)
    ensures montoText != "" && ValidateCompra(monto, saldo).None? ==> BuyEnabled(montoText, monto, false, saldo)
    ensures BuyEnabled("50", Some(50.0), false, 1000.0) && ValidateCompra(Some(50.0), 1000.0) == Some(BelowMinimum)
  {
  }

  /** The dialog after a successful purchase quotes the bought amount and the amount typed. */
  function PurchaseAlert(bought: string, montoText: string): (a: Alert)
    ensures a.title == "🎉 Compra Exitosa"
    ensures Contains(a.message, bought) && Contains(a.message, montoText)
  {
    var m := "Has comprado " + bought + " G7Coin por $" + montoText;
    ContainsInfix("Has comprado ", bought, " G7Coin por $" + montoText);
    assert m == "Has comprado " + bought + (" G7Coin por $" + montoText);
    ContainsInfix("Has comprado " + bought + " G7Coin por $", montoText, "");
    assert m + "" == m;
    Alert("🎉 Compra Exitosa", m)
  }

  class Screen {
    const saldoPesos: real
    var montoPesos: string
    var cantidadCrypto: real
    var loading: bool
    /** The price the preview divides by; `None` when a price response lacked it. */
    var precioActual: Option<real>
    /** The dialog on screen, if any. */
    var alert: Option<Alert>
    /** The amounts posted to `/wallet/comprar-crypto`, oldest first. */
    var requests: seq<real>

    /** The screen opened with the route's balance and price, either possibly missing. */
    constructor(saldo: Option<real>, precio: Option<real>)
      ensures saldoPesos == RouteDefaults(saldo, precio).0
      ensures precioActual == Some(RouteDefaults(saldo, precio).1)
      ensures montoPesos == "" && cantidadCrypto == 0.0 && !loading && alert == None && requests == []
    {
      var d := RouteDefaults(saldo, precio);
      saldoPesos := d.0;
      precioActual := Some(d.1);
      montoPesos, cantidadCrypto, loading, alert, requests := "", 0.0, false, None, [];
    }

    /** `loadPrecioCrypto`, given how the price request ends: a response replaces the price
        with its `precio` field (missing or not); a failed request leaves it unchanged. */
    method LoadPrecioCrypto(response: Outcome<Option<real>>)
      modifies this
      ensures response.Done? ==> precioActual == response.value
      ensures response.Threw? ==> precioActual == old(precioActual)
      ensures montoPesos == old(montoPesos) && cantidadCrypto == old(cantidadCrypto) && loading == old(loading)
      ensures alert == old(alert) && requests == old(requests)
    {
      if response.Done? {
        precioActual := response.value;
      }
    }

    /** The effect that recomputes the preview whenever the amount or the price changes, given
        `parseFloat(montoPesos)`. */
    method CalculateCrypto(monto: Option<real>)
      modifies this
      ensures cantidadCrypto == CryptoAmount(monto, precioActual)
      ensures montoPesos == old(montoPesos) && precioActual == old(precioActual) && loading == old(loading)
      ensures alert == old(alert) && requests == old(requests)
    {
      cantidadCrypto := CryptoAmount(monto, precioActual);
    }

    /** A quick percentage button, with the rounding corrected to round down. */
    method HandleMontoRapido(percentage: nat)
      modifies this
      ensures montoPesos == IntToString(QuickAmount(saldoPesos, percentage))
      ensures cantidadCrypto == old(cantidadCrypto) && precioActual == old(precioActual) && loading == old(loading)
      ensures alert == old(alert) && requests == old(requests)
    {
      montoPesos := IntToString(QuickAmount(saldoPesos, percentage));
    }

    /** `handleComprarCrypto`, given `parseFloat(montoPesos)` and how the request ends (with the
        bought amount as the response renders it). A refused purchase returns before the `try`
        and only shows its dialog; otherwise the amount is posted and the loading flag ends
        cleared. */
    method HandleComprarCrypto(monto: Option<real>, response: Outcome<string>)
      modifies this
      ensures montoPesos == old(montoPesos) && cantidadCrypto == old(cantidadCrypto)
      ensures precioActual == old(precioActual)
      ensures ValidateCompra(monto, saldoPesos).Some? ==>
                && alert == Some(Alert("Error", ValidateCompra(monto, saldoPesos).value))
                && loading == old(loading) && requests == old(requests)
      ensures ValidateCompra(monto, saldoPesos).None? ==> !loading && requests == old(requests) + [monto.value]
      ensures ValidateCompra(monto, saldoPesos).None? && response.Done? ==>
                alert == Some(PurchaseAlert(response.value, montoPesos))
      ensures ValidateCompra(monto, saldoPesos).None? && response.Threw? ==>
                alert == Some(Alert("Error", if response.message != "" then response.message else PurchaseFailed))
    {
      var rejection := ValidateCompra(monto, saldoPesos);
      if rejection.Some? {
        alert := Some(Alert("Error", rejection.value));
        return;
      }
      loading := true;
      requests := requests + [monto.value];
      if response.Done? {
        alert := Some(PurchaseAlert(response.value, montoPesos));
      } else {
        alert := Some(Alert("Error", if response.message != "" then response.message else PurchaseFailed));
      }
      loading := false;
    }
  }
}

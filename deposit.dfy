/**
  What the two balance-top-up screens (ExternalBrowserCargarSaldo.jsx and
  CheckoutProCargarSaldo.jsx) share: the quick amounts, the amount check `validateMonto`
  and the shape of the payment-preference response. Each screen carries an identical copy;
  they are modelled once here.

  `parseFloat` is not modelled: an amount is what it returns, `None` standing for NaN.
*/
module Deposit {
  import opened Wrappers
  import opened Text

  /** `montosRapidos` */
  const QuickAmounts: seq<nat> := [500, 1000, 2000, 5000, 10000]

  const MinAmount: real := 100.0
  const MaxAmount: real := 50000.0

  const InvalidAmount := "Por favor ingrese un monto válido"
  const BelowMinimum := "El monto mínimo es $100"
  const AboveMaximum := "El monto máximo es $50,000"

  /** `validateMonto()`: `None` when the amount is accepted, otherwise the message of the first
      check that rejects it (shown in an 'Error' alert). */
  function ValidateMonto(amount: Option<real>): (r: Option<string>)
    ensures r.None? <==> amount.Some? && MinAmount <= amount.value <= MaxAmount
    ensures (amount.None? || amount.value <= 0.0) ==> r == Some(InvalidAmount)
    ensures amount.Some? && 0.0 < amount.value < MinAmount ==> r == Some(BelowMinimum)
    ensures amount.Some? && amount.value > MaxAmount ==> r == Some(AboveMaximum)
  {
    match amount
    case None => Some(InvalidAmount)
    case Some(v) =>
      if v <= 0.0 then Some(InvalidAmount)
      else if v < MinAmount then Some(BelowMinimum)
      else if v > MaxAmount then Some(AboveMaximum)
      else None
  }

  /** Every quick amount passes the check. */
  lemma QuickAmountsAccepted()
    ensures forall i :: 0 <= i < |QuickAmounts| ==> ValidateMonto(Some(QuickAmounts[i] as real)).None?
  {
  }

  /** `handleMontoRapido(amount)` writes `amount.toString()` into the text field; read back as
      a decimal number, that text is the quick amount again, so it passes the check. */
  lemma QuickAmountTextAccepted(i: nat)
    requires i < |QuickAmounts|
    ensures var t := NatToString(QuickAmounts[i]);
            DigitsValue(t) == QuickAmounts[i] && ValidateMonto(Some(DigitsValue(t) as real)).None?
  {
    NatToStringRoundTrip(QuickAmounts[i]);
    QuickAmountsAccepted();
  }

  /** Both bounds are inclusive. */
  lemma BoundsInclusive()
    ensures ValidateMonto(Some(100.0)).None? && ValidateMonto(Some(50000.0)).None?
    ensures ValidateMonto(Some(99.99)) == Some(BelowMinimum)
    ensures ValidateMonto(Some(50000.01)) == Some(AboveMaximum)
  {
  }

  /** The fields of the `/wallet/create-preference` response the screens read; a missing
      field is `None`. */
  datatype PreferenceResponse = PreferenceResponse(
    status: Option<string>,
    error: Option<string>,
    initPoint: Option<string>,
    sandboxInitPoint: Option<string>,
    transactionId: Option<string>)

  /** A string field is truthy when present and non-empty. */
  predicate Truthy(f: Option<string>) {
    f.Some? && f.value != ""
  }
}

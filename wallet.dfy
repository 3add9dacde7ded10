/**
  The wallet screen (app/Wallet.jsx): the balances and transaction list it shows, the icon,
  status and sign each transaction is rendered with, the refresh that replaces both or
  neither, and the parameters it opens the purchase screen with. The two awaited reads are
  parameters of the refresh.
*/
module Wallet {
  import opened Wrappers
  import BuyCrypto

  datatype WalletData = WalletData(saldoPesos: real, saldoCrypto: real, precioCrypto: real)

  /** A row of `/wallet/transacciones`, with the fields the list renders. */
  datatype Transaction = Transaction(tipo: string, estado: string, monto: real)

  /** The wallet shown before the first read completes. */
  const InitialWallet := WalletData(0.0, 0.0, 25.0)

  const LoadFailed := Alert("Error", "No se pudo cargar la información de la billetera")

  const KnownTypes: seq<string> := ["CARGA_SALDO", "COMPRA_CRYPTO", "VENTA_CRYPTO", "PAGO_PEDIDO"]
  const DefaultIcon := "📄"

  /** `getTransactionIcon(tipo)` */
  function TransactionIcon(tipo: string): (icon: string)
    ensures icon == DefaultIcon <==> tipo !in KnownTypes
    ensures tipo == "CARGA_SALDO" ==> icon == "💰"
    ensures tipo == "COMPRA_CRYPTO" ==> icon == "🪙"
    ensures tipo == "VENTA_CRYPTO" ==> icon == "💸"
    ensures tipo == "PAGO_PEDIDO" ==> icon == "🛍️"
  {
    if tipo == "CARGA_SALDO" then "💰"
    else if tipo == "COMPRA_CRYPTO" then "🪙"
    else if tipo == "VENTA_CRYPTO" then "💸"
    else if tipo == "PAGO_PEDIDO" then "🛍️"
    else DefaultIcon
  }

  /** The four known types get four different icons, so the icon tells the type apart. */
  lemma IconsTellTypesApart(a: string, b: string)
    requires a in KnownTypes && b in KnownTypes && a != b
    ensures TransactionIcon(a) != TransactionIcon(b)
  {
  }

  /** The label and colour of a transaction's state. */
  datatype StatusStyle = StatusStyle(text: string, color: string)

  const KnownStates: seq<string> := ["COMPLETADA", "PENDIENTE", "FALLIDA", "CANCELADA"]
  const DefaultColor := "#333"

  /** `getTransactionStatus(estado)` */
  function TransactionStatus(estado: string): (s: StatusStyle)
    ensures estado == "COMPLETADA" ==> s == StatusStyle("Completada", "#4caf50")
    ensures estado == "PENDIENTE" ==> s == StatusStyle("Pendiente", "#ff9800")
    ensures estado == "FALLIDA" ==> s == StatusStyle("Fallida", "#f44336")
    ensures estado == "CANCELADA" ==> s == StatusStyle("Cancelada", "#9e9e9e")
    ensures estado !in KnownStates ==> s == StatusStyle(estado, DefaultColor)
  {
    if estado == "COMPLETADA" then StatusStyle("Completada", "#4caf50")
    else if estado == "PENDIENTE" then StatusStyle("Pendiente", "#ff9800")
    else if estado == "FALLIDA" then StatusStyle("Fallida", "#f44336")
    else if estado == "CANCELADA" then StatusStyle("Cancelada", "#9e9e9e")
    else StatusStyle(estado, DefaultColor)
  }

  /** A known state never takes the default colour, and every state gets a non-empty colour;
      an unknown state keeps its own text. */
  lemma StatusColours(estado: string)
    ensures TransactionStatus(estado).color != ""
    ensures TransactionStatus(estado).color == DefaultColor <==> estado !in KnownStates
  {
  }

  /** The sign the amount is rendered with: '+' for a top-up and '-' for everything else. */
  function AmountSign(tipo: string): (c: char)
    ensures c == '+' <==> tipo == "CARGA_SALDO"
    ensures c == '+' || c == '-'
  {
    if tipo == "CARGA_SALDO" then '+' else '-'
  }

  /** A purchase, a sale and an order payment all show as money going out. */
  lemma OnlyTopUpsAdd()
    ensures AmountSign("COMPRA_CRYPTO") == '-' && AmountSign("VENTA_CRYPTO") == '-'
    ensures AmountSign("PAGO_PEDIDO") == '-' && AmountSign("CARGA_SALDO") == '+'
  {
  }

  /** The purchase screen opened from the wallet (`handleComprarCrypto`) starts from the
      wallet's own balance and price, never from its defaults. */
  lemma BuyCryptoSeesWallet(w: WalletData)
    ensures BuyCrypto.RouteDefaults(Some(w.saldoPesos), Some(w.precioCrypto)) == (w.saldoPesos, w.precioCrypto)
  {
  }

  class Screen {
    var walletData: WalletData
    var transacciones: seq<Transaction>
    var loading: bool
    var refreshing: bool
    /** The dialog on screen, if any. */
    var alert: Option<Alert>

    constructor()
      ensures walletData == InitialWallet && transacciones == [] && loading && !refreshing && alert == None
    {
      walletData, transacciones, loading, refreshing, alert := InitialWallet, [], true, false, None;
    }

    /** `loadWalletData`, given how the two reads end. Both results replace the shown data
        only when both reads succeed; if either fails, neither changes and the error dialog
        shows. Both flags end cleared. */
    method LoadWalletData(wallet: Outcome<WalletData>, transactions: Outcome<seq<Transaction>>)
      modifies this
      ensures wallet.Done? && transactions.Done? ==>
                walletData == wallet.value && transacciones == transactions.value && alert == old(alert)
      ensures !(wallet.Done? && transactions.Done?) ==>
                walletData == old(walletData) && transacciones == old(transacciones) && alert == Some(LoadFailed)
      ensures !loading && !refreshing
    {
      if wallet.Done? && transactions.Done? {
        walletData := wallet.value;
        transacciones := transactions.value;
      } else {
        alert := Some(LoadFailed);
      }
      loading := false;
      refreshing := false;
    }

    /** `onRefresh`: the pull-to-refresh indicator shows while the same load runs. */
    method OnRefresh(wallet: Outcome<WalletData>, transactions: Outcome<seq<Transaction>>)
      modifies this
      ensures wallet.Done? && transactions.Done? ==>
                walletData == wallet.value && transacciones == transactions.value && alert == old(alert)
      ensures !(wallet.Done? && transactions.Done?) ==>
                walletData == old(walletData) && transacciones == old(transacciones) && alert == Some(LoadFailed)
      ensures !loading && !refreshing
    {
      refreshing := true;
      LoadWalletData(wallet, transactions);
    }
  }
}

/** The Apple Pay gateway: the browser has already taken the payment, so pay checks
    the configuration and the posted transaction id, marks the order transaction paid
    and records the processor's id in the ledger. */
module ApplePayGateway {
  import opened Php
  import opened Library
  import opened Host
  import opened TransactionLedger
  import opened Config
  import opened CreditCardGateway

  const NotConfigured: string := "Square payment method is not configured for this sales channel."
  const MissingTransactionId: string := "Missing Square transaction id."

  /** The posted transaction id the gateway accepts: a non-empty string. */
  predicate PostedId(v: Value) {
    v.Str? && v.s != ""
  }

  /** The sales channel whose configuration is checked: none for ''. */
  function Channel(salesChannelId: string): Option<string> {
    if salesChannelId != "" then Some(salesChannelId) else None
  }

  /** Both of pay's checks pass. */
  predicate Checked(cfg: SystemConfig, salesChannelId: string, bag: Fields)
    reads cfg
  {
    IsConfigured(cfg, Channel(salesChannelId)) && PostedId(Field(bag, "squarepayments_transaction_id"))
  }

  /** pay. `salesChannelId` is the context source's sales channel ('' when it has
      none); `extension` is the context's `paymentMethodName` ArrayStruct, if any. The
      interruption's text is its reason. */
  method Pay(store: Store, ledger: Ledger, cfg: SystemConfig, salesChannelId: string, bag: Fields, txId: string,
             extension: Option<Fields>)
    returns (r: Outcome<()>)
    modifies store, ledger
    ensures store.orders == old(store.orders) && store.customers == old(store.customers)
    ensures !IsConfigured(cfg, Channel(salesChannelId)) ==>
      r == Thrown(NotConfigured) && store.txs == Moved(old(store.txs), txId, Failed) && ledger.rows == old(ledger.rows)
    ensures IsConfigured(cfg, Channel(salesChannelId)) && !PostedId(Field(bag, "squarepayments_transaction_id")) ==>
      r == Thrown(MissingTransactionId) && store.txs == Moved(old(store.txs), txId, Failed)
      && ledger.rows == old(ledger.rows)
    ensures Checked(cfg, salesChannelId, bag) && old(OrderIdOf(store, txId)).Thrown? ==>
      r == Thrown("RuntimeException") && store.txs == old(store.txs) && ledger.rows == old(ledger.rows)
    ensures r.Ok? <==> Checked(cfg, salesChannelId, bag) && old(OrderIdOf(store, txId)).Ok?
    ensures r.Ok? ==>
      && store.txs == Moved(old(store.txs), txId, PaidState)
      && ledger.rows == old(ledger.rows) + [Row(old(OrderIdOf(store, txId)).value, ContextMethodName(extension),
           bag["squarepayments_transaction_id"].s, Paid, map[])]
  {
    if !IsConfigured(cfg, Channel(salesChannelId)) {
      store.Transition(txId, Failed);
      return Thrown(NotConfigured);
    }
    var id := Field(bag, "squarepayments_transaction_id");
    if !PostedId(id) {
      store.Transition(txId, Failed);
      return Thrown(MissingTransactionId);
    }
    var name := ContextMethodName(extension);
    var orderId := OrderIdOf(store, txId);
    if orderId.Thrown? {
      return Thrown(orderId.error);
    }
    store.Transition(txId, PaidState);
    var _ := ledger.AddTransaction(orderId.value, name, id, Paid);
    r := Ok(());
  }

  /** supports as written: the method id is compared with the credit card method's. */
  function SupportsAsWritten(methods: seq<PaymentMethod>, paymentMethodId: string): bool {
    HandlerMethodId(methods, CreditCardHandler) == Some(paymentMethodId)
  }

  /** With a credit card method listed before an Apple Pay method, the gateway as
      written claims the credit card method and refuses its own. */
  lemma SupportsAsWrittenClaimsCreditCard(methods: seq<PaymentMethod>, cc: nat, ap: nat)
    requires cc < |methods| && ap < |methods|
    requires methods[cc].handler == CreditCardHandler && methods[ap].handler == ApplePayHandler
    requires forall j :: 0 <= j < cc ==> methods[j].handler != CreditCardHandler
    requires forall i, j :: 0 <= i < j < |methods| ==> methods[i].id != methods[j].id
    ensures SupportsAsWritten(methods, methods[cc].id)
    ensures !SupportsAsWritten(methods, methods[ap].id)
  {
  }

  /** supports, as evidently intended: the gateway's own Apple Pay method. */
  function Supports(methods: seq<PaymentMethod>, paymentMethodId: string): bool {
    HandlerMethodId(methods, ApplePayHandler) == Some(paymentMethodId)
  }

  /** The gateway takes exactly the first Apple Pay method the repository lists, and
      never a method of another handler when method ids are unique. */
  lemma SupportsOwnMethodOnly(methods: seq<PaymentMethod>, paymentMethodId: string)
    requires forall i, j :: 0 <= i < j < |methods| ==> methods[i].id != methods[j].id
    ensures Supports(methods, paymentMethodId) <==>
      exists i :: 0 <= i < |methods| && methods[i].handler == ApplePayHandler && methods[i].id == paymentMethodId
        && forall j :: 0 <= j < i ==> methods[j].handler != ApplePayHandler
    ensures forall k :: 0 <= k < |methods| && methods[k].handler != ApplePayHandler ==>
      !Supports(methods, methods[k].id)
  {
  }
}

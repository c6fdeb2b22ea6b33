/** The Google Pay gateway: the browser has already taken the payment, so pay marks
    the order transaction paid and records the posted processor id in the ledger,
    without checking the configuration or the id. */
module GooglePayGateway {
  import opened Php
  import opened Library
  import opened Host
  import opened TransactionLedger
  import opened CreditCardGateway

  /** pay. `extension` is the context's `paymentMethodName` ArrayStruct, if any. The
      posted id goes to the ledger unchecked; a write the ledger refuses is an
      exception after the transaction has been marked paid. */
  method Pay(store: Store, ledger: Ledger, bag: Fields, txId: string, extension: Option<Fields>)
    returns (r: Outcome<()>)
    modifies store, ledger
    ensures store.orders == old(store.orders) && store.customers == old(store.customers)
    ensures old(OrderIdOf(store, txId)).Thrown? ==>
      r == Thrown("RuntimeException") && store.txs == old(store.txs) && ledger.rows == old(ledger.rows)
    ensures old(OrderIdOf(store, txId)).Ok? ==>
      && store.txs == Moved(old(store.txs), txId, PaidState)
      && (r.Ok? <==> Storable(Field(bag, "squarepayments_transaction_id")))
      && (r.Thrown? ==> r.error == WriteRejected && ledger.rows == old(ledger.rows))
      && (r.Ok? ==> ledger.rows == old(ledger.rows) + [Row(old(OrderIdOf(store, txId)).value,
            ContextMethodName(extension), bag["squarepayments_transaction_id"].s, Paid, map[])])
  {
    var id := Field(bag, "squarepayments_transaction_id");
    var name := ContextMethodName(extension);
    var orderId := OrderIdOf(store, txId);
    if orderId.Thrown? {
      return Thrown(orderId.error);
    }
    store.Transition(txId, PaidState);
    var row := ledger.AddTransaction(orderId.value, name, id, Paid);
    if row.None? {
      return Thrown(WriteRejected);
    }
    r := Ok(());
  }

  /** supports: the gateway's own Google Pay method, the first the repository lists. */
  function Supports(methods: seq<PaymentMethod>, paymentMethodId: string): bool {
    HandlerMethodId(methods, GooglePayHandler) == Some(paymentMethodId)
  }

  /** The gateway takes exactly the first Google Pay method, and never a method of
      another handler when method ids are unique. */
  lemma SupportsOwnMethodOnly(methods: seq<PaymentMethod>, paymentMethodId: string)
    requires forall i, j :: 0 <= i < j < |methods| ==> methods[i].id != methods[j].id
    ensures Supports(methods, paymentMethodId) <==>
      exists i :: 0 <= i < |methods| && methods[i].handler == GooglePayHandler && methods[i].id == paymentMethodId
        && forall j :: 0 <= j < i ==> methods[j].handler != GooglePayHandler
    ensures forall k :: 0 <= k < |methods| && methods[k].handler != GooglePayHandler ==>
      !Supports(methods, methods[k].id)
  {
  }
}

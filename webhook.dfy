/** WebHookService: the processor's payment and refund notifications reconciled with
    the order transaction's state. The decision is a pure guard chain over the
    current state and the notified status; applying it makes at most one transition. */
module WebHook {
  import opened Php
  import opened Library
  import opened Host
  import opened TransactionLedger
  import opened Config

  /** mapWebhookStatusToShopware: the four processor statuses the plugin knows. */
  function MapStatus(webhookStatus: string): (r: Option<TxState>)
    ensures r == Some(AuthorizedState) <==> webhookStatus == "APPROVED"
    ensures r == Some(PaidState) <==> webhookStatus == "COMPLETED"
    ensures r == Some(Cancelled) <==> webhookStatus == "VOIDED"
    ensures r == Some(Refunded) <==> webhookStatus == "REFUNDED"
    ensures r.None? <==> webhookStatus !in {"APPROVED", "COMPLETED", "VOIDED", "REFUNDED"}
  {
    match webhookStatus
    case "APPROVED" => Some(AuthorizedState)
    case "COMPLETED" => Some(PaidState)
    case "VOIDED" => Some(Cancelled)
    case "REFUNDED" => Some(Refunded)
    case _ => None
  }

  /** What the guard chain decides: answer without a transition, or move. */
  datatype Decision = Keep(result: bool) | Move(to: TxState)

  predicate IsTerminal(s: TxState) {
    s == Refunded || s == Cancelled
  }

  /** The guard chain, in the order of the source: already there, terminal state,
      unknown status, refund needs paid, capture needs authorized. */
  function Decide(current: TxState, webhookStatus: string): Decision {
    var target := MapStatus(webhookStatus);
    if target == Some(current) then Keep(true)
    else if IsTerminal(current) then Keep(true)
    else if target.None? then Keep(false)
    else if target.value == Refunded && current != PaidState then Keep(false)
    else if target.value == PaidState && current != AuthorizedState then Keep(false)
    else Move(target.value)
  }

  /** The transitions the reconciler may make: never out of a terminal state, to
      refunded only from paid, to paid only from authorized; to authorized and to
      cancelled from any other non-terminal state. */
  predicate AllowedMove(current: TxState, to: TxState) {
    current != to && !IsTerminal(current)
    && (to == Refunded ==> current == PaidState)
    && (to == PaidState ==> current == AuthorizedState)
  }

  /** The chain moves exactly when the status is known and the move is allowed, and
      then to the status's state. */
  lemma DecideMovesExactly(current: TxState, webhookStatus: string)
    ensures Decide(current, webhookStatus).Move? <==>
      MapStatus(webhookStatus).Some? && AllowedMove(current, MapStatus(webhookStatus).value)
    ensures Decide(current, webhookStatus).Move? ==> Decide(current, webhookStatus).to == MapStatus(webhookStatus).value
  {
  }

  /** Without a move the answer is true exactly for an already-applied status or a
      terminal state (even when the status is unknown); false otherwise. */
  lemma KeepAnswers(current: TxState, webhookStatus: string)
    requires Decide(current, webhookStatus).Keep?
    ensures Decide(current, webhookStatus).result <==>
      MapStatus(webhookStatus) == Some(current) || IsTerminal(current)
  {
  }

  /** Redelivery: once a move has been applied, the same notification is answered
      true with no further transition; and a decision never undoes itself. */
  lemma RedeliveryIsIdempotent(current: TxState, webhookStatus: string)
    requires Decide(current, webhookStatus).Move?
    ensures Decide(Decide(current, webhookStatus).to, webhookStatus) == Keep(true)
  {
  }

  /** An existing order transaction of the order. */
  predicate OfOrder(txs: map<string, OrderTx>, orderId: string, id: string) {
    id in txs && txs[id].orderId == orderId
  }

  /** The order transaction a notification concerns: the first existing transaction
      the order lists (the search on orderId, `->first()`). */
  function OrderTransactionOf(store: Store, orderId: string): (r: Option<string>)
    reads store
    ensures r.None? <==> (orderId !in store.orders
      || forall i :: 0 <= i < |store.orders[orderId].transactions| ==>
           !OfOrder(store.txs, orderId, store.orders[orderId].transactions[i]))
    ensures r.Some? ==> orderId in store.orders && exists i :: (
      && 0 <= i < |store.orders[orderId].transactions|
      && store.orders[orderId].transactions[i] == r.value
      && OfOrder(store.txs, orderId, r.value)
      && forall j :: 0 <= j < i ==> !OfOrder(store.txs, orderId, store.orders[orderId].transactions[j]))
  {
    if orderId !in store.orders then None
    else
      var ids := store.orders[orderId].transactions;
      var txs := store.txs;
      var i := FirstWhere(ids, (id: string) => OfOrder(txs, orderId, id));
      if i.Some? then Some(ids[i.value]) else None
  }

  /** The transaction a payment id reaches: through the first ledger row carrying it,
      to that row's order's first existing transaction. */
  function WebhookTarget(store: Store, ledger: Ledger, paymentId: string): (r: Option<string>)
    reads store, ledger
    ensures r.Some? ==> r.value in store.txs
    ensures r.Some? <==> (ledger.TransactionByProcessorId(paymentId).Some?
      && OrderTransactionOf(store, ledger.rows[ledger.TransactionByProcessorId(paymentId).value].orderId).Some?)
    ensures r.Some? ==> store.txs[r.value].orderId == ledger.rows[ledger.TransactionByProcessorId(paymentId).value].orderId
  {
    match ledger.TransactionByProcessorId(paymentId)
    case None => None
    case Some(i) => OrderTransactionOf(store, ledger.rows[i].orderId)
  }

  /** The transactions after reconciling a notification: only the target can move,
      to the decided state, and only when the state machine accepts. */
  function SyncedTxs(store: Store, ledger: Ledger, paymentId: string, webhookStatus: string, hostAccepts: bool)
    : (txs: map<string, OrderTx>)
    reads store, ledger
  {
    match WebhookTarget(store, ledger, paymentId)
    case None => store.txs
    case Some(txId) =>
      match Decide(store.txs[txId].state, webhookStatus)
      case Keep(_) => store.txs
      case Move(to) => if hostAccepts then Moved(store.txs, txId, to) else store.txs
  }

  /** Reconciling changes at most the target transaction's state, and changes it
      exactly when the guard chain moves and the state machine accepts. */
  lemma SyncedMovesOnlyTarget(store: Store, ledger: Ledger, paymentId: string, webhookStatus: string, hostAccepts: bool)
    ensures var txs := SyncedTxs(store, ledger, paymentId, webhookStatus, hostAccepts);
      && txs.Keys == store.txs.Keys
      && (forall id :: id in txs && Some(id) != WebhookTarget(store, ledger, paymentId) ==> txs[id] == store.txs[id])
      && (forall id :: id in txs ==> txs[id].(state := store.txs[id].state) == store.txs[id])
    ensures var target := WebhookTarget(store, ledger, paymentId);
      target.Some? ==>
        (SyncedTxs(store, ledger, paymentId, webhookStatus, hostAccepts)[target.value].state != store.txs[target.value].state
         <==> hostAccepts && Decide(store.txs[target.value].state, webhookStatus).Move?)
  {
    var target := WebhookTarget(store, ledger, paymentId);
    if target.Some? {
      DecideMovesExactly(store.txs[target.value].state, webhookStatus);
    }
  }

  /** syncOrderPaymentStatusWithWebhook. `hostAccepts` is whether the host's state
      machine performs the transition (false: it threw). */
  method Sync(store: Store, ledger: Ledger, paymentId: string, webhookStatus: string, hostAccepts: bool)
    returns (ok: bool)
    modifies store
    ensures store.orders == old(store.orders) && store.customers == old(store.customers)
    ensures old(WebhookTarget(store, ledger, paymentId)).None? ==> !ok && store.txs == old(store.txs)
    ensures old(WebhookTarget(store, ledger, paymentId)).Some? ==>
      var txId := old(WebhookTarget(store, ledger, paymentId)).value;
      match Decide(old(store.txs)[txId].state, webhookStatus)
      case Keep(result) => ok == result && store.txs == old(store.txs)
      case Move(to) =>
        && ok == hostAccepts
        && store.txs == if hostAccepts then old(store.txs)[txId := old(store.txs)[txId].(state := to)] else old(store.txs)
    ensures store.txs == old(SyncedTxs(store, ledger, paymentId, webhookStatus, hostAccepts))
  {
    var target := WebhookTarget(store, ledger, paymentId);
    if target.None? {
      return false;
    }
    var txId := target.value;
    match Decide(store.txs[txId].state, webhookStatus)
    case Keep(result) =>
      ok := result;
    case Move(to) =>
      if hostAccepts {
        store.Transition(txId, to);
      }
      ok := hostAccepts;
  }

  /** `$payload['data']['object'][$kind] ?? null` */
  function EventObject(payload: Fields, kind: string): Value {
    Get(Get(Field(payload, "data"), "object"), kind)
  }

  /** The ids of an event object reach the reconciler: both are strings. */
  predicate Reconcilable(data: Value, paymentIdKey: string) {
    StringArg(Get(data, paymentIdKey)).Ok? && StringArg(Get(data, "status")).Ok?
  }

  /** The transactions after handling an event: reconciled on its payment id and
      status when it has an object and both are strings, unchanged otherwise. */
  function HandledTxs(store: Store, ledger: Ledger, payload: Fields, kind: string, paymentIdKey: string,
                      hostAccepts: bool): map<string, OrderTx>
    reads store, ledger
  {
    var data := EventObject(payload, kind);
    if Truthy(data) && Reconcilable(data, paymentIdKey) then
      SyncedTxs(store, ledger, ToStr(Get(data, paymentIdKey)), ToStr(Get(data, "status")), hostAccepts)
    else store.txs
  }

  /** An event that handle answers true for: an object with string ids and a
      non-empty own id. */
  predicate AcceptedEvent(payload: Fields, kind: string, paymentIdKey: string) {
    var data := EventObject(payload, kind);
    Truthy(data) && Reconcilable(data, paymentIdKey) && Truthy(Get(data, "id"))
  }

  /** handlePayment / handleRefund: reconcile on the payment id (a refund's
      `payment_id`), then answer whether the event's own id (the payment's, or the
      refund's) is non-empty, whatever the reconciliation gave. */
  method HandleEvent(store: Store, ledger: Ledger, payload: Fields, kind: string, idKey: string,
                     paymentIdKey: string, hostAccepts: bool)
    returns (r: Outcome<bool>)
    modifies store
    ensures store.orders == old(store.orders) && store.customers == old(store.customers)
    ensures !Truthy(EventObject(payload, kind)) ==> r == Ok(false) && store.txs == old(store.txs)
    ensures Truthy(EventObject(payload, kind)) ==>
      var data := EventObject(payload, kind);
      (r.Thrown? <==> StringArg(Get(data, paymentIdKey)).Thrown? || StringArg(Get(data, "status")).Thrown?)
      && (r.Thrown? ==> store.txs == old(store.txs))
      && (r.Ok? ==> r.value == Truthy(Get(data, idKey)))
    ensures store.txs == old(HandledTxs(store, ledger, payload, kind, paymentIdKey, hostAccepts))
  {
    var data := EventObject(payload, kind);
    if !Truthy(data) {
      return Ok(false);
    }
    var paymentId := StringArg(Get(data, paymentIdKey));
    var status := StringArg(Get(data, "status"));
    if paymentId.Thrown? || status.Thrown? {
      return Thrown("TypeError");
    }
    var _ := Sync(store, ledger, paymentId.value, status.value, hostAccepts);
    r := Ok(Truthy(Get(data, idKey)));
  }

  predicate IsPaymentEvent(t: Value) {
    LooseIs(t, "payment.created") || LooseIs(t, "payment.updated")
  }

  predicate IsRefundEvent(t: Value) {
    !IsPaymentEvent(t) && (LooseIs(t, "refund.created") || LooseIs(t, "refund.updated"))
  }

  /** accept: `payload` is the decoded request body (null when it does not decode). */
  method Accept(store: Store, ledger: Ledger, payload: Value, hostAccepts: bool) returns (r: Outcome<bool>)
    modifies store
    ensures store.orders == old(store.orders) && store.customers == old(store.customers)
    ensures !Truthy(payload) || Get(payload, "type") == Null ==> r == Ok(false) && store.txs == old(store.txs)
    ensures !IsPaymentEvent(Get(payload, "type")) && !IsRefundEvent(Get(payload, "type")) ==>
      r == Ok(false) && store.txs == old(store.txs)
    ensures r == Ok(true) <==>
      && payload.Arr? && Truthy(payload)
      && ((IsPaymentEvent(Get(payload, "type")) && AcceptedEvent(payload.fields, "payment", "id"))
         || (IsRefundEvent(Get(payload, "type")) && AcceptedEvent(payload.fields, "refund", "payment_id")))
    ensures Truthy(payload) && IsPaymentEvent(Get(payload, "type")) ==>
      store.txs == old(HandledTxs(store, ledger, payload.fields, "payment", "id", hostAccepts))
    ensures Truthy(payload) && IsRefundEvent(Get(payload, "type")) ==>
      store.txs == old(HandledTxs(store, ledger, payload.fields, "refund", "payment_id", hostAccepts))
  {
    if !Truthy(payload) || Get(payload, "type") == Null {
      return Ok(false);
    }
    var eventType := payload.fields["type"];
    if IsPaymentEvent(eventType) {
      r := HandleEvent(store, ledger, payload.fields, "payment", "id", "id", hostAccepts);
    } else if IsRefundEvent(eventType) {
      r := HandleEvent(store, ledger, payload.fields, "refund", "id", "payment_id", hostAccepts);
    } else {
      r := Ok(false);
    }
  }

  /** The controller's answer: 200 "Webhook accepted" or 400 "Webhook failed". */
  function AcceptResponse(accepted: bool): (r: (string, int))
    ensures r.1 == 200 <==> accepted
    ensures r.1 == 200 || r.1 == 400
  {
    if accepted then ("Webhook accepted", 200) else ("Webhook failed", 400)
  }

  /** The configuration name of an environment's webhook subscription id. */
  function SubscriptionIdName(environment: string): string {
    environment + "WebhookSubscriptionId"
  }

  /** delete without a stored subscription id: false, without a processor call
      (None: the call is made, and its answer is not part of this model). */
  function DeleteWithoutSubscription(cfg: SystemConfig, environment: string): (r: Option<bool>)
    reads cfg
    ensures r.Some? <==> !Truthy(ConfigGet(cfg, SubscriptionIdName(environment), None))
    ensures r.Some? ==> !r.value
  {
    if !Truthy(ConfigGet(cfg, SubscriptionIdName(environment), None)) then Some(false) else None
  }

  /** getStatus without a stored subscription id: `['status' => 'not configured']`. */
  function StatusWithoutSubscription(cfg: SystemConfig, environment: string): (r: Option<Fields>)
    reads cfg
    ensures r.Some? <==> !Truthy(ConfigGet(cfg, SubscriptionIdName(environment), None))
    ensures r.Some? ==> r.value == map["status" := Str("not configured")]
  {
    if !Truthy(ConfigGet(cfg, SubscriptionIdName(environment), None)) then Some(map["status" := Str("not configured")])
    else None
  }
}

/** The credit card payment handler: the storefront payment (pay), the asynchronous
    return (finalize), and the subscription's recurring charge (recurring). The host's
    state handler calls are transitions of the store. */
module CreditCardGateway {
  import opened Php
  import opened Library
  import opened Host
  import opened TransactionLedger
  import opened Enrichment
  import opened Config
  import opened CardChoice
  import opened SubscriptionId
  import opened PaymentRules
  import opened ResponseHandle
  import opened PaymentService
  import opened IdempotencyKey

  /** The name of the credit card payment method the plugin installs. */
  const DefaultMethodName: string := "Square Payments Credit Card"

  /** getPaymentMethodName: the transaction's payment method name ('' when unnamed);
      the plugin's own name when the transaction or its method is missing. */
  function PaymentMethodName(store: Store, txId: string): string
    reads store
  {
    if txId in store.txs && store.txs[txId].paymentMethod.Some? then
      var name := store.txs[txId].paymentMethod.value.name;
      if name.Some? then name.value else ""
    else DefaultMethodName
  }

  /** getOrderIdFromTransaction: a RuntimeException when the transaction or its order
      is missing. */
  function OrderIdOf(store: Store, txId: string): (r: Outcome<string>)
    reads store
    ensures r.Ok? <==> store.OrderOfTx(txId).Some?
    ensures r.Ok? ==> r.value == store.OrderOfTx(txId).value.id
  {
    match store.OrderOfTx(txId)
    case Some(o) => Ok(o.id)
    case None => Thrown("RuntimeException")
  }

  // ------------------------------------------------------------------------ pay

  /** `$dataBag->get('squarepayments_is_subscription') == "1"` */
  predicate SubscriptionFlag(v: Value) {
    v == Str("1") || v == Int(1) || v == Float(1.0) || v == Bool(true)
  }

  /** The card the browser sent for a subscription: `?? ""`. */
  function SubscriptionCard(bag: Fields): Value {
    OrElse(Field(bag, "squarepayments_subscription_card"), Str(""))
  }

  /** The browser reported success with a transaction id. */
  predicate PayAccepted(bag: Fields) {
    Field(bag, "squarepayments_payment_status") == Str("success")
    && Truthy(Field(bag, "squarepayments_transaction_id"))
  }

  /** The switch on the payment mode: AUTHORIZE_AND_CAPTURE pays, anything else
      authorizes. */
  function PayStatus(paymentMode: Value): (s: TransactionStatus)
    ensures s == Paid || s == Authorized
    ensures s == Paid <==> LooseIs(paymentMode, AuthorizeAndCapture)
  {
    if LooseIs(paymentMode, AuthorizeAndCapture) then Paid else Authorized
  }

  /** The state transition that goes with the recorded status. */
  function PayState(paymentMode: Value): (s: TxState)
    ensures TechnicalName(s) == StatusValue(PayStatus(paymentMode))
  {
    if LooseIs(paymentMode, AuthorizeAndCapture) then PaidState else AuthorizedState
  }

  /** The gateway's loose switch and the charge's strict autocomplete test agree on
      every mode but `true`. */
  lemma PayStatusAgreesWithCharge(paymentMode: Value)
    ensures paymentMode != Bool(true) ==> PayStatus(paymentMode) == ModeStatus(paymentMode)
    ensures PayStatus(Bool(true)) == Paid && ModeStatus(Bool(true)) == Authorized
  {
  }

  /** The `recurringPayment` entry pay stores for a subscription card. */
  function SubscriptionCardRecord(card: Value): Value {
    Arr(map[
      "reference" := Get(card, "id"),
      "meta" := Arr(map[
        "provider" := Str("square"),
        "cardId" := Get(card, "id"),
        "squareCustomerId" := Get(card, "customer_id"),
        "subscriptionCard" := card])])
  }

  /** pay stores the card when the order is a subscription, a card was sent and it
      decodes to an array. */
  predicate StoresSubscriptionCard(bag: Fields, decodedCard: Value) {
    SubscriptionFlag(Field(bag, "squarepayments_is_subscription")) && SubscriptionCard(bag) != Str("")
    && IsArray(decodedCard)
  }

  /** `json_decode($subscriptionCard, true)` in the ledger call throws a TypeError for
      a subscription whose posted card is an array. */
  predicate CardArgRejected(bag: Fields) {
    SubscriptionFlag(Field(bag, "squarepayments_is_subscription")) && IsArray(SubscriptionCard(bag))
  }

  /** The transaction's custom fields with the card record written over
      `recurringPayment`; the other custom fields are kept. */
  function WithSubscriptionCard(txs: map<string, OrderTx>, txId: string, card: Value): map<string, OrderTx> {
    if txId in txs then
      txs[txId := txs[txId].(customFields := Arr(AsFields(txs[txId].customFields)["recurringPayment" := SubscriptionCardRecord(card)]))]
    else txs
  }

  /** The payment data logged: the posted array, else its JSON decoding, where a
      falsy decoding reads as `[]`; None when that is not an array (a TypeError). */
  function CardPaymentData(raw: Value, decoded: Value): (r: Option<Fields>)
    ensures IsArray(raw) ==> r == Some(AsFields(raw))
    ensures !IsArray(raw) && !Truthy(decoded) ==> r == Some(map[])
    ensures !IsArray(raw) && Truthy(decoded) ==> (r.Some? <==> IsArray(decoded))
    ensures !IsArray(raw) && IsArray(decoded) ==> r == Some(AsFields(decoded))
  {
    if IsArray(raw) then Some(AsFields(raw))
    else
      var data := if Truthy(decoded) then decoded else List([]);
      if IsArray(data) then Some(AsFields(data)) else None
  }

  /** The merge of the subscription card into the transaction's custom fields. */
  method StoreSubscriptionCard(store: Store, txId: string, card: Value)
    modifies store
    ensures store.txs == WithSubscriptionCard(old(store.txs), txId, card)
    ensures store.orders == old(store.orders) && store.customers == old(store.customers)
  {
    var existing := if txId in store.txs then AsFields(store.txs[txId].customFields) else map[];
    store.SetTxCustomFields(txId, existing["recurringPayment" := SubscriptionCardRecord(card)]);
  }

  /** pay. `bag` is the posted form, `txId` the order transaction; `decodedCard` and
      `decodedPaymentData` are the JSON decodings of the posted subscription card and
      payment data; `logId` is the enrichment's random payment id. */
  method Pay(store: Store, ledger: Ledger, cfg: SystemConfig, bag: Fields, txId: string,
             decodedCard: Value, decodedPaymentData: Value, logId: string)
    returns (r: Outcome<Option<nat>>)
    modifies store, ledger
    ensures store.orders == old(store.orders) && store.customers == old(store.customers)
    ensures !PayAccepted(bag) ==>
      r == Ok(None) && store.txs == Moved(old(store.txs), txId, Failed) && ledger.rows == old(ledger.rows)
    ensures PayAccepted(bag) && old(OrderIdOf(store, txId)).Thrown? ==>
      r == Thrown("RuntimeException") && store.txs == old(store.txs) && ledger.rows == old(ledger.rows)
    ensures PayAccepted(bag) && old(OrderIdOf(store, txId)).Ok? ==>
      var mode := ConfigGet(cfg, "paymentMode", None);
      var merged := if StoresSubscriptionCard(bag, decodedCard)
        then WithSubscriptionCard(old(store.txs), txId, decodedCard) else old(store.txs);
      store.txs == Moved(merged, txId, PayState(mode))
    ensures PayAccepted(bag) && old(OrderIdOf(store, txId)).Ok? && CardArgRejected(bag) ==>
      r == Thrown("TypeError") && ledger.rows == old(ledger.rows)
    ensures PayAccepted(bag) && old(OrderIdOf(store, txId)).Ok? && !CardArgRejected(bag) ==>
      PaymentBooked(old(ledger.rows), ledger.rows, old(OrderIdOf(store, txId)).value, old(PaymentMethodName(store, txId)),
        bag, ConfigGet(cfg, "paymentMode", None), decodedPaymentData, logId, r)
  {
    var isSubscription := SubscriptionFlag(Field(bag, "squarepayments_is_subscription"));
    var subscriptionCard := SubscriptionCard(bag);
    if !PayAccepted(bag) {
      store.Transition(txId, Failed);
      return Ok(None);
    }
    var paymentMode := ConfigGet(cfg, "paymentMode", None);
    var methodName := PaymentMethodName(store, txId);
    var orderId := OrderIdOf(store, txId);
    if orderId.Thrown? {
      return Thrown(orderId.error);
    }
    if isSubscription && subscriptionCard != Str("") && IsArray(decodedCard) {
      StoreSubscriptionCard(store, txId, decodedCard);
    }
    store.Transition(txId, PayState(paymentMode));
    if CardArgRejected(bag) {
      return Thrown("TypeError");
    }
    r := BookPayment(ledger, orderId.value, methodName, bag, paymentMode, decodedPaymentData, logId);
  }

  /** pay's ledger write: the booking of the payment's status, logged under that
      status from the card payment data. */
  predicate PaymentBooked(before: seq<Row>, after: seq<Row>, orderId: string, methodName: string, bag: Fields,
                          paymentMode: Value, decodedPaymentData: Value, logId: string, r: Outcome<Option<nat>>)
  {
    var status := PayStatus(paymentMode);
    Booked(before, after, orderId, methodName, Field(bag, "squarepayments_transaction_id"), status, StatusValue(status),
      CardPaymentData(Field(bag, "square_payment_data"), decodedPaymentData), logId, r)
  }

  /** The ledger write of pay. */
  method BookPayment(ledger: Ledger, orderId: string, methodName: string, bag: Fields, paymentMode: Value,
                     decodedPaymentData: Value, logId: string)
    returns (r: Outcome<Option<nat>>)
    modifies ledger
    ensures PaymentBooked(old(ledger.rows), ledger.rows, orderId, methodName, bag, paymentMode, decodedPaymentData, logId, r)
  {
    var data := CardPaymentData(Field(bag, "square_payment_data"), decodedPaymentData);
    r := Book(ledger, orderId, methodName, Field(bag, "squarepayments_transaction_id"), PayStatus(paymentMode),
      StatusValue(PayStatus(paymentMode)), data, logId);
  }

  // ------------------------------------------------------------------- supports

  /** The kinds of payment a handler can be asked about. */
  datatype HandlerType = RecurringType | RefundType

  /** supports: the credit card handler takes recurring charges only. */
  function Supports(handlerType: HandlerType): (r: bool)
    ensures r <==> handlerType == RecurringType
  {
    handlerType == RecurringType
  }

  // ------------------------------------------------------------------- finalize

  /** finalize's switch: STORE authorizes, anything else pays. */
  function FinalizeStatus(paymentMode: Value): (s: TransactionStatus)
    ensures s == Paid || s == Authorized
    ensures s == Authorized <==> LooseIs(paymentMode, TypeValue(TransactionType.Store))
  {
    if LooseIs(paymentMode, TypeValue(TransactionType.Store)) then Authorized else Paid
  }

  function FinalizeState(paymentMode: Value): (s: TxState)
    ensures TechnicalName(s) == StatusValue(FinalizeStatus(paymentMode))
  {
    if LooseIs(paymentMode, TypeValue(TransactionType.Store)) then AuthorizedState else PaidState
  }

  /** pay and finalize read the same mode differently: they agree on capture, and on
      every other mode pay authorizes where finalize pays (STORE aside). */
  lemma PayAndFinalizeModes(mode: string)
    ensures PayStatus(Str(AuthorizeAndCapture)) == FinalizeStatus(Str(AuthorizeAndCapture)) == Paid
    ensures mode != AuthorizeAndCapture && mode != "STORE" ==>
      PayStatus(Str(mode)) == Authorized && FinalizeStatus(Str(mode)) == Paid
  {
  }

  /** The payment data finalize logs: the posted array, else its JSON decoding; None
      when neither is an array (a TypeError). */
  function FinalizePaymentData(raw: Value, decoded: Value): Option<Fields> {
    if IsArray(raw) then Some(AsFields(raw))
    else if IsArray(decoded) then Some(AsFields(decoded))
    else None
  }

  predicate FinalizeAccepted(bag: Fields) {
    Field(bag, "status") == Str("success") && Truthy(Field(bag, "squarepayments_transaction_id"))
  }

  /** finalize. `decodedPaymentData` is the JSON decoding of the posted payment data. */
  method Finalize(store: Store, ledger: Ledger, cfg: SystemConfig, bag: Fields, txId: string,
                  decodedPaymentData: Value, logId: string)
    returns (r: Outcome<Option<nat>>)
    modifies store, ledger
    ensures store.orders == old(store.orders) && store.customers == old(store.customers)
    ensures !FinalizeAccepted(bag) ==>
      r == Ok(None) && store.txs == Moved(old(store.txs), txId, Failed) && ledger.rows == old(ledger.rows)
    ensures FinalizeAccepted(bag) && old(OrderIdOf(store, txId)).Thrown? ==>
      r == Thrown("RuntimeException") && store.txs == old(store.txs) && ledger.rows == old(ledger.rows)
    ensures FinalizeAccepted(bag) && old(OrderIdOf(store, txId)).Ok? ==>
      var mode := ConfigGet(cfg, "paymentMode", None);
      && store.txs == Moved(old(store.txs), txId, FinalizeState(mode))
      && Booked(old(ledger.rows), ledger.rows, old(OrderIdOf(store, txId)).value, old(PaymentMethodName(store, txId)),
           Field(bag, "squarepayments_transaction_id"), FinalizeStatus(mode), "success",
           FinalizePaymentData(Field(bag, "square_payment_data"), decodedPaymentData), logId, r)
  {
    var transactionId := Field(bag, "squarepayments_transaction_id");
    if !FinalizeAccepted(bag) {
      store.Transition(txId, Failed);
      return Ok(None);
    }
    var paymentMode := ConfigGet(cfg, "paymentMode", None);
    var orderId := OrderIdOf(store, txId);
    if orderId.Thrown? {
      return Thrown(orderId.error);
    }
    var methodName := PaymentMethodName(store, txId);
    store.Transition(txId, FinalizeState(paymentMode));
    var data := FinalizePaymentData(Field(bag, "square_payment_data"), decodedPaymentData);
    r := Book(ledger, orderId.value, methodName, transactionId, FinalizeStatus(paymentMode), "success", data, logId);
  }

  // ------------------------------------------------------------------ recurring

  /** The card the customer chose for the order's subscription: the order has a
      customer and a valid subscription id, and the stored choice names a card. */
  function ChosenCard(order: Order, choices: ChoiceRepository): (r: Option<string>)
    reads choices
    ensures r.Some? ==>
      && r.value != ""
      && order.customerId.Some? && order.customerId.value != ""
      && SubscriptionId.Extract(order.accessors).Some? && IsUuid(SubscriptionId.Extract(order.accessors).value)
      && choices.Find(order.customerId.value, SubscriptionId.Extract(order.accessors).value).Some?
      && choices.rows[choices.Find(order.customerId.value, SubscriptionId.Extract(order.accessors).value).value].squareCardId == r.value
    ensures
      && order.customerId.Some? && order.customerId.value != ""
      && SubscriptionId.Extract(order.accessors).Some? && IsUuid(SubscriptionId.Extract(order.accessors).value)
      && choices.Find(order.customerId.value, SubscriptionId.Extract(order.accessors).value).Some?
      && choices.rows[choices.Find(order.customerId.value, SubscriptionId.Extract(order.accessors).value).value].squareCardId != ""
      ==> r.Some?
  {
    var customer := order.customerId;
    var subscription := SubscriptionId.Extract(order.accessors);
    if customer.Some? && customer.value != "" && subscription.Some? && IsUuid(subscription.value) then
      match choices.Find(customer.value, subscription.value)
      case Some(i) => if choices.rows[i].squareCardId != "" then Some(choices.rows[i].squareCardId) else None
      case None => None
    else None
  }

  /** The chosen card written over the stored reference: `reference` and
      `meta.cardId` name it and `meta.provider` is 'square'; every other custom field,
      and every other key of `recurringPayment` and of its `meta`, is kept. */
  function WithChosenCard(customFields: Value, card: string): Fields {
    var recurringPayment := AsFields(Get(customFields, "recurringPayment"));
    var meta := AsFields(Get(Get(customFields, "recurringPayment"), "meta"));
    AsFields(customFields)["recurringPayment" :=
      Arr(recurringPayment["reference" := Str(card)]["meta" := Arr(meta["provider" := Str("square")]["cardId" := Str(card)])])]
  }

  /** `recurringPayment.reference`, when it is a string. */
  function CardReference(customFields: Value): Option<string> {
    AsString(Get(Get(customFields, "recurringPayment"), "reference"))
  }

  /** `recurringPayment.meta.squareCustomerId`, when it is a string. */
  function CustomerReference(customFields: Value): Option<string> {
    AsString(Get(Get(Get(customFields, "recurringPayment"), "meta"), "squareCustomerId"))
  }

  /** A stored choice wins: recurring then charges the chosen card, for the Square
      customer stored before. */
  lemma ChosenCardWins(customFields: Value, card: string)
    ensures CardReference(Arr(WithChosenCard(customFields, card))) == Some(card)
    ensures CustomerReference(Arr(WithChosenCard(customFields, card))) == CustomerReference(customFields)
  {
  }

  /** What pay stores for a subscription card is what recurring reads back: the card's
      id and customer id, when they are strings. */
  lemma PayStoresWhatRecurringReads(customFields: Value, card: Value)
    ensures var stored := Arr(AsFields(customFields)["recurringPayment" := SubscriptionCardRecord(card)]);
      && CardReference(stored) == AsString(Get(card, "id"))
      && CustomerReference(stored) == AsString(Get(card, "customer_id"))
  {
  }

  /** The amount in minor units: the total rounded, times 100 unless the currency is
      zero-decimal. */
  function RecurringAmount(totalPrice: real, currency: string): int {
    if IsZeroDecimal(currency) then Round(totalPrice) else Round(totalPrice * 100.0)
  }

  /** The recurring amount is the storefront charge's conversion of the same total. */
  lemma RecurringAmountIsMinorUnit(totalPrice: real, currency: string)
    ensures RecurringAmount(totalPrice, currency) == ToMinorUnit(Float(totalPrice), currency)
    ensures -0.5 <= MajorUnits(RecurringAmount(totalPrice, currency), currency) - totalPrice <= 0.5
  {
  }

  const NoTransaction: string := "Order transaction not found"
  const NoOrder: string := "Order not found for transaction"
  const NoCardReference: string := "Missing Square recurring card reference (customFields.recurringPayment.reference)"
  const NoCustomerReference: string :=
    "Missing Square customer id for recurring charge (customFields.recurringPayment.meta.squareCustomerId)"
  const NoCurrency: string := "Missing currency on order for recurring payment"

  /** The interruption raised when the charge does not end in success. */
  function ChargeFailed(message: string): string {
    "Square recurring payment failed: " + message
  }

  /** The order transaction after the choice is applied. */
  function AfterChoice(store: Store, choices: ChoiceRepository, txId: string): (txs: map<string, OrderTx>)
    reads store, choices
    ensures txs.Keys == store.txs.Keys
    ensures forall t :: t in txs && t != txId ==> txs[t] == store.txs[t]
  {
    if txId in store.txs && store.txs[txId].orderId in store.orders then
      match ChosenCard(store.orders[store.txs[txId].orderId], choices)
      case Some(card) =>
        store.txs[txId := store.txs[txId].(customFields := Arr(WithChosenCard(store.txs[txId].customFields, card)))]
      case None => store.txs
    else store.txs
  }

  /** The upsert of the chosen card into the order transaction's custom fields. */
  method ApplyChoice(store: Store, choices: ChoiceRepository, txId: string)
    modifies store
    ensures store.txs == old(AfterChoice(store, choices, txId))
    ensures store.orders == old(store.orders) && store.customers == old(store.customers)
  {
    if txId in store.txs && store.txs[txId].orderId in store.orders {
      var tx := store.txs[txId];
      var chosen := ChosenCard(store.orders[tx.orderId], choices);
      if chosen.Some? {
        store.SetTxCustomFields(txId, WithChosenCard(tx.customFields, chosen.value));
      }
    }
  }

  /** What recurring charges, or why it stops before charging. */
  datatype RecurringPlan = RecurringPlan(
    cardId: string, orderId: string, squareCustomerId: string, amountMinor: int, currency: string)

  /** A reference read from the custom fields that is a truthy string. */
  predicate ReferenceSet(reference: Option<string>) {
    reference.Some? && Truthy(Str(reference.value))
  }

  /** The plan: the card and customer references read after the choice is applied,
      the order's currency and its total in minor units; the first missing piece
      interrupts with its own reason. */
  function Plan(store: Store, choices: ChoiceRepository, txId: string): (r: Outcome<RecurringPlan>)
    reads store, choices
    ensures txId in store.txs && store.txs[txId].orderId in store.orders ==>
      var fields := AfterChoice(store, choices, txId)[txId].customFields;
      var order := store.orders[store.txs[txId].orderId];
      var cardId := CardReference(fields);
      var squareCustomerId := CustomerReference(fields);
      && (!ReferenceSet(cardId) ==> r == Thrown(NoCardReference))
      && (ReferenceSet(cardId) && !ReferenceSet(squareCustomerId) ==> r == Thrown(NoCustomerReference))
      && (ReferenceSet(cardId) && ReferenceSet(squareCustomerId) && (order.currency.None? || order.currency.value == "") ==>
            r == Thrown(NoCurrency))
      && (ReferenceSet(cardId) && ReferenceSet(squareCustomerId) && order.currency.Some? && order.currency.value != "" ==>
            && r.Ok? && r.value.cardId == cardId.value && r.value.squareCustomerId == squareCustomerId.value
            && r.value.currency == order.currency.value)
    ensures txId !in store.txs ==> r == Thrown(NoTransaction)
    ensures txId in store.txs && store.txs[txId].orderId !in store.orders ==> r == Thrown(NoOrder)
    ensures r.Ok? ==>
      && r.value.cardId != "" && r.value.squareCustomerId != "" && r.value.currency != ""
      && var order := store.orders[store.txs[txId].orderId];
      && r.value.orderId == order.id
      && r.value.amountMinor == ToMinorUnit(Float(order.amountTotal), r.value.currency)
      && (ChosenCard(order, choices).Some? ==> r.value.cardId == ChosenCard(order, choices).value)
  {
    if txId !in store.txs then Thrown(NoTransaction)
    else if store.txs[txId].orderId !in store.orders then Thrown(NoOrder)
    else
      var order := store.orders[store.txs[txId].orderId];
      var fields := AfterChoice(store, choices, txId)[txId].customFields;
      var cardId := CardReference(fields);
      var squareCustomerId := CustomerReference(fields);
      var currency := if order.currency.Some? then order.currency.value else "";
      if !ReferenceSet(cardId) then Thrown(NoCardReference)
      else if !ReferenceSet(squareCustomerId) then Thrown(NoCustomerReference)
      else if currency == "" then Thrown(NoCurrency)
      else
        RecurringAmountIsMinorUnit(order.amountTotal, currency);
        var chosen := ChosenCard(order, choices);
        ChosenCardWins(store.txs[txId].customFields, if chosen.Some? then chosen.value else "");
        Ok(RecurringPlan(cardId.value, order.id, squareCustomerId.value,
          RecurringAmount(order.amountTotal, currency), currency))
  }

  /** How recurring reads processRecurringPayment's answer: a thrown one escapes, one
      whose status is not 'success' interrupts with its message ('unknown error' when
      it has none), and a success stands. */
  function Ended(result: Outcome<Fields>): Outcome<Fields> {
    if result.Thrown? then result
    else if Field(result.value, "status") != Str("success") then
      Thrown(ChargeFailed(ToStr(OrElse(Field(result.value, "message"), Str("unknown error")))))
    else result
  }

  /** The end of recurring: the transaction is paid exactly when the answer stands. */
  method EndRecurring(store: Store, txId: string, result: Outcome<Fields>) returns (r: Outcome<Fields>)
    modifies store
    ensures r == Ended(result)
    ensures store.orders == old(store.orders) && store.customers == old(store.customers)
    ensures store.txs == (if r.Ok? then Moved(old(store.txs), txId, PaidState) else old(store.txs))
  {
    r := Ended(result);
    if r.Ok? {
      store.Transition(txId, PaidState);
    }
  }

  /** Every way processRecurringPayment can answer a plan, as recurring ends it: the
      reason of each interruption, and the success. */
  lemma {:induction false} PlanOutcomes(cfg: SystemConfig, plan: RecurringPlan, mode: Value, charge: ProcessorCall,
                                        accepted: bool, logId: string)
    requires plan.cardId != "" && plan.squareCustomerId != ""
    ensures var end := Ended(RecurringAnswer(cfg, plan.cardId, plan.orderId, plan.squareCustomerId, mode, charge,
      accepted, logId));
      && (plan.orderId == "" ==> end == Thrown(ChargeFailed(IdsRequired)))
      && (plan.orderId != "" && LocationId(cfg).Thrown? ==> end == Thrown("TypeError"))
      && (plan.orderId != "" && LocationId(cfg).Ok? && charge.Threw? ==> end == Thrown(ChargeFailed(charge.message)))
      && (plan.orderId != "" && LocationId(cfg).Ok? && charge.Returned? && !IsSuccess(Call(charge)) ==>
            end == Thrown(ChargeFailed("Payment failed")))
      && (plan.orderId != "" && LocationId(cfg).Ok? && IsSuccess(Call(charge)) && !accepted ==>
            end == Thrown(ChargeFailed(TransitionRejected)))
      && ((plan.orderId != "" && LocationId(cfg).Ok? && IsSuccess(Call(charge)) && accepted
           && RecurringPaymentId(Call(charge)) == "") ==> end == Thrown(ChargeFailed(WriteRejected)))
      && ((plan.orderId != "" && LocationId(cfg).Ok? && IsSuccess(Call(charge)) && accepted
           && RecurringPaymentId(Call(charge)) != "") ==>
            var record := ChargeRecord(OrElse(Call(charge).payment, Arr(map[])), mode, logId);
            && (record.None? ==> end == Thrown(ChargeFailed("TypeError")))
            && (record.Some? ==>
                  end == Ok(map["status" := Str("success"), "paymentId" := Str(RecurringPaymentId(Call(charge)))])))
    ensures (Ended(RecurringAnswer(cfg, plan.cardId, plan.orderId, plan.squareCustomerId, mode, charge, accepted,
      logId)).Ok?) ==> RecurringSettles(cfg, plan.cardId, plan.orderId, plan.squareCustomerId, charge, accepted)
  {
    var answer := RecurringAnswer(cfg, plan.cardId, plan.orderId, plan.squareCustomerId, mode, charge, accepted, logId);
    if answer.Ok? {
      var status := Field(answer.value, "status");
      var message := Field(answer.value, "message");
      if plan.orderId == "" {
        assert status == Str("error") && message == Str(IdsRequired);
      } else if charge.Threw? {
        assert status == Str("error") && message == Str(charge.message);
      } else if !IsSuccess(Call(charge)) {
        assert status == Str("error") && message == Str("Payment failed");
      } else if !accepted {
        assert status == Str("error") && message == Str(TransitionRejected);
      } else if RecurringPaymentId(Call(charge)) == "" {
        assert status == Str("error") && message == Str(WriteRejected);
      } else if ChargeRecord(OrElse(Call(charge).payment, Arr(map[])), mode, logId).None? {
        assert status == Str("error") && message == Str("TypeError");
      } else {
        assert status == Str("success");
      }
    }
  }

  /** The charge recurring makes once its guards pass, and the answer it turns into
      an interruption or into the paid state. A location id that is not a string is a
      TypeError that escapes both processRecurringPayment and recurring. */
  method ChargePlan(store: Store, ledger: Ledger, cfg: SystemConfig, plan: RecurringPlan, txId: string, mode: Value,
                    random: seq<bv8>, charge: ProcessorCall, accepted: bool, logId: string)
    returns (r: Outcome<Fields>, charged: Option<ChargeRequest>)
    requires |random| == 16
    requires plan.cardId != "" && plan.squareCustomerId != ""
    modifies store, ledger
    ensures store.orders == old(store.orders) && store.customers == old(store.customers)
    ensures plan.orderId == "" || LocationId(cfg).Thrown? ==> charged.None?
    ensures plan.orderId != "" && LocationId(cfg).Ok? ==>
      charged == Some(ChargeRequest(plan.cardId, Key(random), Some(plan.squareCustomerId),
        plan.amountMinor, RecurringCurrency(plan.currency), LocationId(cfg).value, Autocomplete(mode)))
    ensures r == Ended(RecurringAnswer(cfg, plan.cardId, plan.orderId, plan.squareCustomerId, mode, charge, accepted,
      logId))
    ensures ledger.rows == RecurringRows(old(ledger.rows), cfg, plan.cardId, plan.orderId, plan.squareCustomerId,
      mode, charge, accepted, logId)
    ensures store.txs ==
      if r.Ok? then Moved(old(store.txs), txId, PaidState)
      else if RecurringSettles(cfg, plan.cardId, plan.orderId, plan.squareCustomerId, charge, accepted)
      then Moved(old(store.txs), txId, ModeState(mode))
      else old(store.txs)
  {
    var result;
    result, charged := ProcessRecurringPayment(store, ledger, cfg, plan.cardId, plan.orderId, plan.squareCustomerId,
      plan.amountMinor, plan.currency, txId, mode, random, charge, accepted, logId);
    PlanOutcomes(cfg, plan, mode, charge, accepted, logId);
    ghost var moved := store.txs;
    r := EndRecurring(store, txId, result);
    if r.Ok? {
      assert moved == Moved(old(store.txs), txId, ModeState(mode));
      MovedTwice(old(store.txs), txId, ModeState(mode), PaidState);
    }
  }

  /** recurring. `choices` is the card choice table; `random`, `charge`, `accepted`
      and `logId` are what processRecurringPayment draws, gets from the processor and
      from the state machine. The interruption's text is its reason. */
  method Recurring(store: Store, ledger: Ledger, cfg: SystemConfig, choices: ChoiceRepository, txId: string,
                   random: seq<bv8>, charge: ProcessorCall, accepted: bool, logId: string)
    returns (r: Outcome<Fields>, charged: Option<ChargeRequest>)
    requires |random| == 16
    modifies store, ledger
    ensures store.orders == old(store.orders) && store.customers == old(store.customers)
    ensures old(Plan(store, choices, txId)).Thrown? ==>
      && r == Thrown(old(Plan(store, choices, txId)).error) && charged.None?
      && store.txs == old(AfterChoice(store, choices, txId)) && ledger.rows == old(ledger.rows)
    ensures old(Plan(store, choices, txId)).Ok? ==>
      var plan := old(Plan(store, choices, txId)).value;
      var mode := ConfigGet(cfg, "paymentMode", None);
      var after := old(AfterChoice(store, choices, txId));
      && (plan.orderId == "" || LocationId(cfg).Thrown? ==> charged.None?)
      && (plan.orderId != "" && LocationId(cfg).Ok? ==>
            charged == Some(ChargeRequest(plan.cardId, Key(random), Some(plan.squareCustomerId), plan.amountMinor,
              RecurringCurrency(plan.currency), LocationId(cfg).value, Autocomplete(mode))))
      && r == Ended(RecurringAnswer(cfg, plan.cardId, plan.orderId, plan.squareCustomerId, mode, charge, accepted,
           logId))
      && ledger.rows == RecurringRows(old(ledger.rows), cfg, plan.cardId, plan.orderId, plan.squareCustomerId,
           mode, charge, accepted, logId)
      && store.txs == (
           if r.Ok? then Moved(after, txId, PaidState)
           else if RecurringSettles(cfg, plan.cardId, plan.orderId, plan.squareCustomerId, charge, accepted)
           then Moved(after, txId, ModeState(mode))
           else after)
  {
    var plan := Plan(store, choices, txId);
    ApplyChoice(store, choices, txId);
    if plan.Thrown? {
      return Thrown(plan.error), None;
    }
    r, charged := ChargePlan(store, ledger, cfg, plan.value, txId, ConfigGet(cfg, "paymentMode", None),
      random, charge, accepted, logId);
  }
}

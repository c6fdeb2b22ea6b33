/** SquarePaymentService: the storefront charge (authorizePayment), the recurring
    charges (requiringPayment, processRecurringPayment) and the choice of an order's
    latest transaction. The processor's answers, the random bytes and whether the
    host's state machine accepts a transition are inputs. */
module PaymentService {
  import opened Php
  import opened Library
  import opened Host
  import opened TransactionLedger
  import opened Enrichment
  import opened ResponseHandle
  import opened IdempotencyKey
  import opened PaymentRules
  import opened CardService
  import opened Config

  /** The CreatePaymentRequest sent to the processor. */
  datatype ChargeRequest = ChargeRequest(
    sourceId: string,
    idempotencyKey: string,
    customerId: Option<string>,
    amount: int,
    currency: string,
    locationId: string,
    autocomplete: bool)

  /** `['status' => 'error', 'message' => $message]` */
  function ErrorResponse(message: string): (m: Fields)
    ensures Field(m, "status") == Str("error") && Field(m, "message") == Str(message)
  {
    map["status" := Str("error"), "message" := Str(message)]
  }

  /** `['status' => 'error', 'message' => 'Payment failed', 'details' => $processed]` */
  function PaymentFailed(p: Processed): (m: Fields)
    ensures Field(m, "status") == Str("error") && Field(m, "message") == Str("Payment failed")
  {
    map["status" := Str("error"), "message" := Str("Payment failed"), "details" := Arr(AsArray(p))]
  }

  const IdsRequired: string := "Card ID, Customer Id and Order ID are required"

  /** Stand-in for the message of the exception the host's state machine throws when
      it refuses a transition. */
  const TransitionRejected: string := "state transition rejected"

  /** The ledger status and the order-transaction state a successful charge records:
      paid when the mode captures at once, authorized otherwise. */
  function ModeStatus(paymentMode: Value): (s: TransactionStatus)
    ensures s == Paid || s == Authorized
    ensures s == Paid <==> Autocomplete(paymentMode)
  {
    if Autocomplete(paymentMode) then Paid else Authorized
  }

  function ModeState(paymentMode: Value): (s: TxState)
    ensures TechnicalName(s) == StatusValue(ModeStatus(paymentMode))
  {
    if Autocomplete(paymentMode) then PaidState else AuthorizedState
  }

  // ---------------------------------------------------------- latest transaction

  /** `$t->getCreatedAt()?->getTimestamp() ?? 0` */
  function Stamp(t: OrderTx): int {
    if t.createdAt.Some? then t.createdAt.value else 0
  }

  /** The transaction the selection loop keeps: a latest one, and among equally late
      ones the last in iteration order. */
  function LatestOf(ts: seq<OrderTx>): (r: Option<nat>)
    ensures r.None? <==> |ts| == 0
    ensures r.Some? ==> r.value < |ts|
    ensures r.Some? ==> forall j :: 0 <= j < |ts| ==> Stamp(ts[j]) <= Stamp(ts[r.value])
    ensures r.Some? ==> forall j :: r.value < j < |ts| ==> Stamp(ts[j]) < Stamp(ts[r.value])
  {
    if |ts| == 0 then None
    else
      var prev := LatestOf(ts[..|ts| - 1]);
      assert forall j :: 0 <= j < |ts| - 1 ==> ts[..|ts| - 1][j] == ts[j];
      if prev.None? || Stamp(ts[|ts| - 1]) >= Stamp(ts[prev.value]) then Some(|ts| - 1) else prev
  }

  /** getLatestOrderTransactionId: null for no transactions, otherwise the one with
      the greatest creation time (missing counts as 0), ties going to the later one. */
  method LatestOrderTransaction(ts: seq<OrderTx>) returns (latest: Option<nat>)
    ensures latest == LatestOf(ts)
    ensures latest.None? <==> |ts| == 0
    ensures latest.Some? ==>
      && latest.value < |ts|
      && (forall j :: 0 <= j < |ts| ==> Stamp(ts[j]) <= Stamp(ts[latest.value]))
      && (forall j :: latest.value < j < |ts| ==> Stamp(ts[j]) < Stamp(ts[latest.value]))
  {
    latest := None;
    var i := 0;
    while i < |ts|
      invariant 0 <= i <= |ts|
      invariant latest == LatestOf(ts[..i])
    {
      assert ts[..i + 1][..i] == ts[..i];
      if latest.None? {
        latest := Some(i);
      } else if Stamp(ts[i]) >= Stamp(ts[latest.value]) {
        latest := Some(i);
      }
      i := i + 1;
    }
    assert ts[..i] == ts;
  }

  /** The order's transactions as the association loads them: those that exist. */
  function Loaded(txs: map<string, OrderTx>, ids: seq<string>): (ts: seq<OrderTx>)
    ensures |ts| <= |ids|
    ensures forall t :: t in ts ==> t in txs.Values
  {
    if ids == [] then []
    else (if ids[0] in txs then [txs[ids[0]]] else []) + Loaded(txs, ids[1..])
  }

  /** The id of the order transaction requiringPayment settles: the latest loaded one. */
  function LatestTx(txs: map<string, OrderTx>, ids: seq<string>): (r: Option<string>)
    ensures r.None? <==> |Loaded(txs, ids)| == 0
    ensures r.Some? ==> r.value in (set t | t in Loaded(txs, ids) :: t.id)
  {
    var ts := Loaded(txs, ids);
    var latest := LatestOf(ts);
    if latest.Some? then Some(ts[latest.value].id) else None
  }

  // ------------------------------------------------------------- authorizePayment

  /** The processor answers the card follow-up of authorizePayment may need. */
  datatype CardCalls = CardCalls(random: seq<bv8>, created: CustomerCreated, call: CardCall, fetch: CardFetch)

  /** `trim(($customer?->getFirstName() ?? '') . ' ' . ($customer?->getLastName() ?? ''))` */
  function CustomerName(customer: Option<Customer>): string {
    if customer.Some? then Trim(customer.value.firstName + " " + customer.value.lastName) else Trim(" ")
  }

  function CustomerIdOf(customer: Option<Customer>): Option<string> {
    if customer.Some? then Some(customer.value.id) else None
  }

  /** The request addCard receives for a card to keep: the charge's payment id is its
      source (addCard reads `paymentId` before `cardToken`, and never `sourceId`). */
  function CardPayload(source: Value, processed: Processed, customer: Option<Customer>): Fields {
    map["sourceId" := source, "paymentId" := PaymentId(processed), "cardholderName" := Str(CustomerName(customer))]
  }

  /** The response after the create-card follow-up, given the shop customers before it:
      the charge response with the created card added when addCard returns one; a
      TypeError inside addCard is caught into an error response. */
  function CreatedCardResponse(customers: map<string, Customer>, customer: Option<Customer>, payload: Fields,
                               processed: Processed, created: CustomerCreated, call: CardCall): Fields
  {
    if customer.None? || !Truthy(CardSource(payload)) then AsArray(processed)
    else
      var obtained := ObtainedSquareId(customers, customer.value.id, payload, created);
      if obtained.Thrown? then ErrorResponse(obtained.error)
      else if obtained.value.None? then AsArray(processed)
      else if CardRequestRefused(payload) then ErrorResponse("TypeError")
      else if call.CardCreated? && "card" in call.result then AsArray(processed)["card" := call.result["card"]]
      else AsArray(processed)
  }

  /** The shop customers after the create-card follow-up: addCard may cache a new
      Square customer id. */
  function CustomersAfterCard(customers: map<string, Customer>, customer: Option<Customer>, payload: Fields,
                              created: CustomerCreated): map<string, Customer>
  {
    if customer.Some? && Truthy(CardSource(payload))
    then CustomersAfterObtain(customers, customer.value.id, payload, created)
    else customers
  }

  /** The card step after a successful charge: the created or fetched card is added to
      the response under `card`; nothing else about the response changes. */
  method AttachCard(store: Store, customer: Option<Customer>, data: Fields, source: Value,
                    processed: Processed, calls: CardCalls)
    returns (response: Fields)
    requires |calls.random| == 16
    modifies store
    ensures store.orders == old(store.orders) && store.txs == old(store.txs)
    ensures FollowUp(data).NoCard? ==> response == AsArray(processed) && store.customers == old(store.customers)
    ensures "card" in response ==> !FollowUp(data).NoCard?
    ensures FollowUp(data).CreateCard? ==>
      var payload := CardPayload(source, processed, customer);
      && response == CreatedCardResponse(old(store.customers), customer, payload, processed, calls.created, calls.call)
      && store.customers == CustomersAfterCard(old(store.customers), customer, payload, calls.created)
    ensures FollowUp(data).FetchCard? ==> store.customers == old(store.customers)
    ensures FollowUp(data).FetchCard? && IsArray(FollowUp(data).cardId) ==> response == ErrorResponse("TypeError")
    ensures FollowUp(data).FetchCard? && !IsArray(FollowUp(data).cardId) ==>
      response == AsArray(processed)["card" := GetSavedCard(store, CustomerIdOf(customer), calls.fetch)["card"]]
  {
    response := AsArray(processed);
    match FollowUp(data)
    case CreateCard =>
      var payload := CardPayload(source, processed, customer);
      var added, _ := AddCard(store, CustomerIdOf(customer), payload, calls.random, calls.created, calls.call);
      if added.Thrown? {
        response := ErrorResponse(added.error);
      } else if "card" in added.value {
        response := response["card" := added.value["card"]];
      }
    case FetchCard(cardId) =>
      if IsArray(cardId) {
        response := ErrorResponse("TypeError");
      } else {
        var saved := GetSavedCard(store, CustomerIdOf(customer), calls.fetch);
        response := response["card" := saved["card"]];
      }
    case NoCard =>
  }

  /** The Square customer id authorizePayment charges with: none for a guest, else the
      one getOrCreateSquareCustomerId gives (or its TypeError). */
  function ChargeCustomer(customers: map<string, Customer>, customer: Option<Customer>, data: Fields,
                          created: CustomerCreated): Outcome<Option<string>>
  {
    if customer.None? then Ok(None) else ObtainedSquareId(customers, customer.value.id, data, created)
  }

  /** The shop customers once authorizePayment has looked up or created the Square customer. */
  function CustomersBeforeCharge(customers: map<string, Customer>, customer: Option<Customer>, data: Fields,
                                 created: CustomerCreated): map<string, Customer>
  {
    if customer.None? then customers else CustomersAfterObtain(customers, customer.value.id, data, created)
  }

  /** authorizePayment up to its `try`: the source check, the Square customer, the
      currency, the amount and the location id. `charged` is the request built (None:
      no charge, and `r` says why); a TypeError here propagates (Thrown). */
  method PrepareCharge(store: Store, cfg: SystemConfig, customer: Option<Customer>, data: Fields,
                       contextCurrency: string, paymentMode: Value, random: seq<bv8>, created: CustomerCreated)
    returns (r: Outcome<Fields>, charged: Option<ChargeRequest>)
    requires |random| == 16
    modifies store
    ensures store.orders == old(store.orders) && store.txs == old(store.txs)
    ensures !Truthy(SourceId(data)) ==>
      r == Ok(ErrorResponse("Source ID is required")) && charged.None? && store.customers == old(store.customers)
    ensures Truthy(SourceId(data)) ==>
      store.customers == CustomersBeforeCharge(old(store.customers), customer, data, created)
    ensures Truthy(SourceId(data)) && ChargeCustomer(old(store.customers), customer, data, created).Thrown? ==>
      r == Thrown(ChargeCustomer(old(store.customers), customer, data, created).error) && charged.None?
    ensures charged.None? && Truthy(SourceId(data)) ==> r.Thrown?
    ensures charged.Some? <==>
      && Truthy(SourceId(data))
      && ChargeCustomer(old(store.customers), customer, data, created).Ok?
      && ChargeCurrency(data, contextCurrency).Some?
      && ChargeAmount(data, ChargeCurrency(data, contextCurrency).value).Some?
      && !IsArray(SourceId(data))
      && LocationId(cfg).Ok?
    ensures charged.Some? ==>
      && charged.value.sourceId == ToStr(SourceId(data))
      && charged.value.idempotencyKey == Key(random)
      && charged.value.customerId == ChargeCustomer(old(store.customers), customer, data, created).value
      && ChargeCurrency(data, contextCurrency) == Some(charged.value.currency)
      && ChargeAmount(data, charged.value.currency) == Some(charged.value.amount)
      && charged.value.locationId == LocationId(cfg).value
      && charged.value.autocomplete == Autocomplete(paymentMode)
  {
    var source := SourceId(data);
    if !Truthy(source) {
      return Ok(ErrorResponse("Source ID is required")), None;
    }
    var key := NewKey(random);
    var squareCustomerId: Option<string> := None;
    if customer.Some? {
      var got, _ := GetOrCreateSquareCustomerId(store, customer.value.id, data, created);
      if got.Thrown? {
        return Thrown(got.error), None;
      }
      squareCustomerId := got.value;
    }
    var currency := ChargeCurrency(data, contextCurrency);
    if currency.None? {
      return Thrown("TypeError"), None;
    }
    var amount := ChargeAmount(data, currency.value);
    if amount.None? || IsArray(source) {
      return Thrown("TypeError"), None;
    }
    var location := LocationId(cfg);
    if location.Thrown? {
      return Thrown("TypeError"), None;
    }
    charged := Some(ChargeRequest(ToStr(source), key, squareCustomerId, amount.value, currency.value,
      location.value, Autocomplete(paymentMode)));
    r := Ok(map[]);
  }

  /** authorizePayment. `charged` is the request sent to the processor (None: no
      charge), `charge` its answer. A TypeError before the `try` (customer lookup,
      currency, amount, an array source, a location id that is not a string)
      propagates (Thrown); an exception inside it becomes an error response. */
  method AuthorizePayment(store: Store, cfg: SystemConfig, customer: Option<Customer>, data: Fields,
                          contextCurrency: string, paymentMode: Value, random: seq<bv8>,
                          created: CustomerCreated, charge: ProcessorCall, calls: CardCalls)
    returns (r: Outcome<Fields>, charged: Option<ChargeRequest>)
    requires |random| == 16 && |calls.random| == 16
    modifies store
    ensures store.orders == old(store.orders) && store.txs == old(store.txs)
    ensures !Truthy(SourceId(data)) ==>
      r == Ok(ErrorResponse("Source ID is required")) && charged.None? && store.customers == old(store.customers)
    ensures Truthy(SourceId(data)) && ChargeCustomer(old(store.customers), customer, data, created).Thrown? ==>
      r == Thrown(ChargeCustomer(old(store.customers), customer, data, created).error) && charged.None?
    ensures charged.Some? <==>
      && Truthy(SourceId(data))
      && ChargeCustomer(old(store.customers), customer, data, created).Ok?
      && ChargeCurrency(data, contextCurrency).Some?
      && ChargeAmount(data, ChargeCurrency(data, contextCurrency).value).Some?
      && !IsArray(SourceId(data))
      && LocationId(cfg).Ok?
    ensures charged.None? && Truthy(SourceId(data)) ==>
      r.Thrown? && store.customers == CustomersBeforeCharge(old(store.customers), customer, data, created)
    ensures charged.Some? ==>
      && charged.value.sourceId == ToStr(SourceId(data))
      && charged.value.idempotencyKey == Key(random)
      && charged.value.customerId == ChargeCustomer(old(store.customers), customer, data, created).value
      && ChargeCurrency(data, contextCurrency) == Some(charged.value.currency)
      && ChargeAmount(data, charged.value.currency) == Some(charged.value.amount)
      && charged.value.locationId == LocationId(cfg).value
      && charged.value.autocomplete == Autocomplete(paymentMode)
    ensures charged.Some? && (!IsSuccess(Call(charge)) || FollowUp(data).NoCard?) ==>
      r == Ok(AsArray(Call(charge)))
      && store.customers == CustomersBeforeCharge(old(store.customers), customer, data, created)
    ensures charged.Some? && IsSuccess(Call(charge)) && FollowUp(data).CreateCard? ==>
      var before := CustomersBeforeCharge(old(store.customers), customer, data, created);
      var payload := CardPayload(SourceId(data), Call(charge), customer);
      && r == Ok(CreatedCardResponse(before, customer, payload, Call(charge), calls.created, calls.call))
      && store.customers == CustomersAfterCard(before, customer, payload, calls.created)
    ensures charged.Some? && IsSuccess(Call(charge)) && FollowUp(data).FetchCard? ==>
      && store.customers == CustomersBeforeCharge(old(store.customers), customer, data, created)
      && r == Ok(if IsArray(FollowUp(data).cardId) then ErrorResponse("TypeError")
                 else AsArray(Call(charge))["card" := GetSavedCard(store, CustomerIdOf(customer), calls.fetch)["card"]])
    ensures r.Ok? && "card" in r.value ==> charged.Some? && IsSuccess(Call(charge)) && !FollowUp(data).NoCard?
  {
    r, charged := PrepareCharge(store, cfg, customer, data, contextCurrency, paymentMode, random, created);
    if charged.None? {
      return;
    }
    var processed := Call(charge);
    var response := AsArray(processed);
    if IsSuccess(processed) {
      response := AttachCard(store, customer, data, SourceId(data), processed, calls);
    }
    r := Ok(response);
  }

  // ------------------------------------------------------------- recurring charges

  /** How the bookkeeping after a successful charge ended: done; the state machine
      refused the transition; the ledger refused the row; the enrichment hit a
      TypeError (after the row was written). */
  datatype Settlement = Settled | Rejected | NotWritten | LogFailed

  /** The enrichment record of a charged payment (the mode's status as its type);
      None when it cannot be built (a TypeError). */
  function ChargeRecord(payment: Value, paymentMode: Value, logId: string): Option<TransactionData> {
    Extract(StatusValue(ModeStatus(paymentMode)), AsFields(payment), logId)
  }

  /** The custom fields a charge row is given: the stored record, or none. */
  function StoredRecord(record: Option<TransactionData>): Fields {
    if record.Some? then Stored(ToArray(record.value)) else map[]
  }

  /** The ledger row a successful charge appends: the mode's status, and as custom
      fields the stored enrichment record, or none when that record cannot be built. */
  function ChargeRow(orderId: string, paymentId: string, payment: Value, paymentMode: Value, logId: string): Row {
    var record := ChargeRecord(payment, paymentMode, logId);
    Row(orderId, "Credit Card", paymentId, ModeStatus(paymentMode), StoredRecord(record))
  }

  /** The ledger half of the bookkeeping: one row with the mode's status is appended
      for the processor's payment id, then its enrichment is written into it. */
  method AppendCharge(ledger: Ledger, orderId: string, paymentId: Value, payment: Value, paymentMode: Value,
                      logId: string)
    returns (s: Settlement)
    modifies ledger
    ensures !Storable(paymentId) ==> s == NotWritten && ledger.rows == old(ledger.rows)
    ensures Storable(paymentId) ==>
      && ledger.rows == old(ledger.rows) + [ChargeRow(orderId, paymentId.s, payment, paymentMode, logId)]
      && (s == Settled || s == LogFailed)
      && (s == Settled <==> ChargeRecord(payment, paymentMode, logId).Some?)
  {
    var status := ModeStatus(paymentMode);
    var id := ledger.AddTransaction(orderId, "Credit Card", paymentId, status);
    if id.None? {
      return NotWritten;
    }
    ghost var row := Row(orderId, "Credit Card", paymentId.s, status, map[]);
    ghost var record := ChargeRecord(payment, paymentMode, logId);
    assert ledger.rows == old(ledger.rows) + [row];
    var ok := LogTransaction(ledger, StatusValue(status), AsFields(payment), id, logId);
    if ok {
      assert ledger.rows == old(ledger.rows) + [row.(customFields := Stored(ToArray(record.value)))];
    }
    s := if ok then Settled else LogFailed;
  }

  /** The bookkeeping after a successful charge: the order transaction moves to the
      mode's state, then the ledger row is appended and enriched. */
  method Settle(store: Store, ledger: Ledger, txId: string, orderId: string, paymentId: Value,
                payment: Value, paymentMode: Value, accepted: bool, logId: string)
    returns (s: Settlement)
    modifies store, ledger
    ensures store.orders == old(store.orders) && store.customers == old(store.customers)
    ensures !accepted ==> s == Rejected && store.txs == old(store.txs) && ledger.rows == old(ledger.rows)
    ensures accepted ==> store.txs == (if txId in old(store.txs)
      then old(store.txs)[txId := old(store.txs)[txId].(state := ModeState(paymentMode))] else old(store.txs))
    ensures accepted && !Storable(paymentId) ==> s == NotWritten && ledger.rows == old(ledger.rows)
    ensures accepted && Storable(paymentId) ==>
      && ledger.rows == old(ledger.rows) + [ChargeRow(orderId, paymentId.s, payment, paymentMode, logId)]
      && (s == Settled || s == LogFailed)
      && (s == Settled <==> ChargeRecord(payment, paymentMode, logId).Some?)
  {
    if !accepted {
      return Rejected;
    }
    store.Transition(txId, ModeState(paymentMode));
    s := AppendCharge(ledger, orderId, paymentId, payment, paymentMode, logId);
  }

  /** The answer of requiringPayment once the charge succeeded and the row was written. */
  const ChargeProcessed: Fields := map["status" := Str("success"), "message" := Str("Payment processed successfully")]

  /** The request requiringPayment sends: the order's total in minor units of the
      order's currency (USD when it has none). */
  function OrderCharge(order: Order, cardId: string, squareCustomerId: string, key: string, locationId: string,
                       paymentMode: Value): (c: ChargeRequest)
    ensures c.currency == OrderCurrency(order.currency)
    ensures c.amount == ToMinorUnit(Float(order.amountTotal), c.currency)
    ensures c.sourceId == cardId && c.customerId == Some(squareCustomerId) && c.idempotencyKey == key
    ensures c.locationId == locationId && c.autocomplete == Autocomplete(paymentMode)
  {
    var currency := OrderCurrency(order.currency);
    ChargeRequest(cardId, key, Some(squareCustomerId), ToMinorUnit(Float(order.amountTotal), currency), currency,
      locationId, Autocomplete(paymentMode))
  }

  /** requiringPayment's `try` once the request is built: the charge's answer, then the
      bookkeeping on transaction `txId`. The enrichment's TypeError escapes
      `catch (\Exception)`; every other failure is an error response. */
  method FinishRequiring(store: Store, ledger: Ledger, txId: string, orderId: string, paymentMode: Value,
                         charge: ProcessorCall, accepted: bool, logId: string)
    returns (r: Outcome<Fields>)
    modifies store, ledger
    ensures store.orders == old(store.orders) && store.customers == old(store.customers)
    ensures charge.Threw? ==>
      r == Ok(ErrorResponse(charge.message)) && store.txs == old(store.txs) && ledger.rows == old(ledger.rows)
    ensures charge.Returned? && !IsSuccess(Call(charge)) ==>
      r == Ok(PaymentFailed(Call(charge))) && store.txs == old(store.txs) && ledger.rows == old(ledger.rows)
    ensures IsSuccess(Call(charge)) && !accepted ==>
      r == Ok(ErrorResponse(TransitionRejected)) && store.txs == old(store.txs) && ledger.rows == old(ledger.rows)
    ensures IsSuccess(Call(charge)) && accepted ==>
      store.txs == (if txId in old(store.txs)
        then old(store.txs)[txId := old(store.txs)[txId].(state := ModeState(paymentMode))] else old(store.txs))
    ensures IsSuccess(Call(charge)) && accepted && Storable(Get(Call(charge).payment, "id")) ==>
      var payment := Call(charge).payment;
      && ledger.rows == old(ledger.rows) + [ChargeRow(orderId, Get(payment, "id").s, payment, paymentMode, logId)]
      && r == (if ChargeRecord(payment, paymentMode, logId).Some? then Ok(ChargeProcessed) else Thrown("TypeError"))
    ensures IsSuccess(Call(charge)) && accepted && !Storable(Get(Call(charge).payment, "id")) ==>
      r == Ok(ErrorResponse(WriteRejected)) && ledger.rows == old(ledger.rows)
  {
    if charge.Threw? {
      return Ok(ErrorResponse(charge.message));
    }
    var processed := Call(charge);
    if !IsSuccess(processed) {
      return Ok(PaymentFailed(processed));
    }
    var settled := Settle(store, ledger, txId, orderId, Get(processed.payment, "id"), processed.payment,
      paymentMode, accepted, logId);
    match settled
    case Rejected => r := Ok(ErrorResponse(TransitionRejected));
    case NotWritten => r := Ok(ErrorResponse(WriteRejected));
    case LogFailed => r := Thrown("TypeError");
    case Settled => r := Ok(ChargeProcessed);
  }

  /** requiringPayment: charges the card for an existing order's total. The location id
      is read before the `try`, so one that is not a string is a TypeError that
      escapes; so is the enrichment's TypeError, which `catch (\Exception)` misses. */
  method RequiringPayment(store: Store, ledger: Ledger, cfg: SystemConfig, cardId: string, orderId: string,
                          squareCustomerId: string, paymentMode: Value, random: seq<bv8>, charge: ProcessorCall,
                          accepted: bool, logId: string)
    returns (r: Outcome<Fields>, charged: Option<ChargeRequest>)
    requires |random| == 16
    modifies store, ledger
    ensures store.orders == old(store.orders) && store.customers == old(store.customers)
    ensures !Truthy(Str(cardId)) || !Truthy(Str(orderId)) || !Truthy(Str(squareCustomerId)) ==>
      r == Ok(ErrorResponse(IdsRequired)) && charged.None?
    ensures Truthy(Str(cardId)) && Truthy(Str(orderId)) && Truthy(Str(squareCustomerId)) && orderId !in old(store.orders) ==>
      r == Ok(ErrorResponse("Order not found")) && charged.None?
    ensures Truthy(Str(cardId)) && Truthy(Str(orderId)) && Truthy(Str(squareCustomerId)) && orderId in old(store.orders) ==>
      var latest := LatestTx(old(store.txs), old(store.orders)[orderId].transactions);
      && (latest.None? ==> r == Ok(ErrorResponse("Order has no transactions")) && charged.None?)
      && (latest.Some? && LocationId(cfg).Thrown? ==> r == Thrown("TypeError") && charged.None?)
      && (latest.Some? && LocationId(cfg).Ok? ==> charged.Some?)
    ensures charged.None? ==> store.txs == old(store.txs) && ledger.rows == old(ledger.rows)
    ensures charged.Some? ==>
      && orderId in old(store.orders) && LocationId(cfg).Ok?
      && charged.value == OrderCharge(old(store.orders)[orderId], cardId, squareCustomerId, Key(random),
           LocationId(cfg).value, paymentMode)
    ensures charged.Some? && charge.Threw? ==>
      r == Ok(ErrorResponse(charge.message)) && store.txs == old(store.txs) && ledger.rows == old(ledger.rows)
    ensures charged.Some? && charge.Returned? && !IsSuccess(Call(charge)) ==>
      r == Ok(PaymentFailed(Call(charge))) && store.txs == old(store.txs) && ledger.rows == old(ledger.rows)
    ensures charged.Some? && IsSuccess(Call(charge)) && !accepted ==>
      r == Ok(ErrorResponse(TransitionRejected)) && store.txs == old(store.txs) && ledger.rows == old(ledger.rows)
    ensures charged.Some? && IsSuccess(Call(charge)) && accepted ==>
      && LatestTx(old(store.txs), old(store.orders)[orderId].transactions).Some?
      && store.txs == Moved(old(store.txs), LatestTx(old(store.txs), old(store.orders)[orderId].transactions).value,
           ModeState(paymentMode))
    ensures charged.Some? && IsSuccess(Call(charge)) && accepted && Storable(Get(Call(charge).payment, "id")) ==>
      var payment := Call(charge).payment;
      && ledger.rows == old(ledger.rows) + [ChargeRow(orderId, Get(payment, "id").s, payment, paymentMode, logId)]
      && r == (if ChargeRecord(payment, paymentMode, logId).Some? then Ok(ChargeProcessed) else Thrown("TypeError"))
    ensures charged.Some? && IsSuccess(Call(charge)) && accepted && !Storable(Get(Call(charge).payment, "id")) ==>
      r == Ok(ErrorResponse(WriteRejected)) && ledger.rows == old(ledger.rows)
  {
    if !Truthy(Str(cardId)) || !Truthy(Str(orderId)) || !Truthy(Str(squareCustomerId)) {
      return Ok(ErrorResponse(IdsRequired)), None;
    }
    if orderId !in store.orders {
      return Ok(ErrorResponse("Order not found")), None;
    }
    var order := store.orders[orderId];
    var ts := Loaded(store.txs, order.transactions);
    var latest := LatestOrderTransaction(ts);
    if latest.None? {
      return Ok(ErrorResponse("Order has no transactions")), None;
    }
    var txId := ts[latest.value].id;
    assert Some(txId) == LatestTx(store.txs, order.transactions);
    var key := NewKey(random);
    var location := LocationId(cfg);
    if location.Thrown? {
      return Thrown("TypeError"), None;
    }
    charged := Some(OrderCharge(order, cardId, squareCustomerId, key, location.value, paymentMode));
    r := FinishRequiring(store, ledger, txId, orderId, paymentMode, charge, accepted, logId);
  }

  /** `(string)($processed['payment']['id'] ?? '')` */
  function RecurringPaymentId(p: Processed): string {
    ToStr(PaymentId(p))
  }

  /** What processRecurringPayment answers: it depends on its inputs, the location id,
      the processor's answer and the host's, and on whether the record can be built. */
  function RecurringAnswer(cfg: SystemConfig, cardId: string, orderId: string, squareCustomerId: string,
                           paymentMode: Value, charge: ProcessorCall, accepted: bool, logId: string): Outcome<Fields>
    reads cfg
  {
    if cardId == "" || orderId == "" || squareCustomerId == "" then Ok(ErrorResponse(IdsRequired))
    else if LocationId(cfg).Thrown? then Thrown("TypeError")
    else if charge.Threw? then Ok(ErrorResponse(charge.message))
    else if !IsSuccess(Call(charge)) then Ok(PaymentFailed(Call(charge)))
    else if !accepted then Ok(ErrorResponse(TransitionRejected))
    else if RecurringPaymentId(Call(charge)) == "" then Ok(ErrorResponse(WriteRejected))
    else if ChargeRecord(OrElse(Call(charge).payment, Arr(map[])), paymentMode, logId).None? then
      Ok(ErrorResponse("TypeError"))
    else Ok(map["status" := Str("success"), "paymentId" := Str(RecurringPaymentId(Call(charge)))])
  }

  /** Whether processRecurringPayment reaches the bookkeeping: the charge was sent and
      succeeded, and the host accepted the transition. */
  predicate RecurringSettles(cfg: SystemConfig, cardId: string, orderId: string, squareCustomerId: string,
                             charge: ProcessorCall, accepted: bool)
    reads cfg
  {
    cardId != "" && orderId != "" && squareCustomerId != "" && LocationId(cfg).Ok?
    && IsSuccess(Call(charge)) && accepted
  }

  /** The ledger after processRecurringPayment: one row appended when it settles with a
      payment id, nothing otherwise. */
  function RecurringRows(rows: seq<Row>, cfg: SystemConfig, cardId: string, orderId: string, squareCustomerId: string,
                         paymentMode: Value, charge: ProcessorCall, accepted: bool, logId: string): seq<Row>
    reads cfg
  {
    if RecurringSettles(cfg, cardId, orderId, squareCustomerId, charge, accepted)
       && RecurringPaymentId(Call(charge)) != ""
    then rows + [ChargeRow(orderId, RecurringPaymentId(Call(charge)), OrElse(Call(charge).payment, Arr(map[])),
      paymentMode, logId)]
    else rows
  }

  /** processRecurringPayment's `try` once the request is built: the charge's answer,
      then the bookkeeping on transaction `txId`, every throwable caught. */
  method FinishRecurring(store: Store, ledger: Ledger, cfg: SystemConfig, cardId: string, orderId: string,
                         squareCustomerId: string, txId: string, paymentMode: Value, charge: ProcessorCall,
                         accepted: bool, logId: string)
    returns (r: Fields)
    requires cardId != "" && orderId != "" && squareCustomerId != "" && LocationId(cfg).Ok?
    modifies store, ledger
    ensures store.orders == old(store.orders) && store.customers == old(store.customers)
    ensures Ok(r) == RecurringAnswer(cfg, cardId, orderId, squareCustomerId, paymentMode, charge, accepted, logId)
    ensures ledger.rows ==
      RecurringRows(old(ledger.rows), cfg, cardId, orderId, squareCustomerId, paymentMode, charge, accepted, logId)
    ensures store.txs == (if RecurringSettles(cfg, cardId, orderId, squareCustomerId, charge, accepted)
      then Moved(old(store.txs), txId, ModeState(paymentMode)) else old(store.txs))
  {
    if charge.Threw? {
      return ErrorResponse(charge.message);
    }
    var processed := Call(charge);
    if !IsSuccess(processed) {
      return PaymentFailed(processed);
    }
    var paymentId := RecurringPaymentId(processed);
    var settled := Settle(store, ledger, txId, orderId, Str(paymentId),
      OrElse(processed.payment, Arr(map[])), paymentMode, accepted, logId);
    match settled
    case Rejected => r := ErrorResponse(TransitionRejected);
    case NotWritten => r := ErrorResponse(WriteRejected);
    case LogFailed => r := ErrorResponse("TypeError");
    case Settled => r := map["status" := Str("success"), "paymentId" := Str(paymentId)];
  }

  /** The request processRecurringPayment sends: none when an id is empty or the
      location id is not a string, otherwise the card charged for the customer with a
      fresh idempotency key, the given amount, the upper-cased currency and the
      configured location. */
  function RecurringCharge(cfg: SystemConfig, cardId: string, orderId: string, squareCustomerId: string,
                           amountMinor: int, currencyIsoCode: string, paymentMode: Value, random: seq<bv8>)
    : (c: Option<ChargeRequest>)
    reads cfg
    requires |random| == 16
    ensures c.Some? <==> cardId != "" && orderId != "" && squareCustomerId != "" && LocationId(cfg).Ok?
    ensures c.Some? ==>
      && c.value.sourceId == cardId && c.value.customerId == Some(squareCustomerId)
      && c.value.idempotencyKey == Key(random) && c.value.amount == amountMinor
      && c.value.currency == RecurringCurrency(currencyIsoCode) && c.value.locationId == LocationId(cfg).value
      && c.value.autocomplete == Autocomplete(paymentMode)
  {
    if cardId == "" || orderId == "" || squareCustomerId == "" || LocationId(cfg).Thrown? then None
    else Some(ChargeRequest(cardId, Key(random), Some(squareCustomerId), amountMinor,
      RecurringCurrency(currencyIsoCode), LocationId(cfg).value, Autocomplete(paymentMode)))
  }

  /** processRecurringPayment: charges a given amount for a given order transaction.
      Inside the `try` every throwable ends in an error response; the location id is
      read before it, so one that is not a string is a TypeError that escapes. */
  method ProcessRecurringPayment(store: Store, ledger: Ledger, cfg: SystemConfig, cardId: string, orderId: string,
                                 squareCustomerId: string, amountMinor: int, currencyIsoCode: string,
                                 orderTransactionId: string, paymentMode: Value, random: seq<bv8>,
                                 charge: ProcessorCall, accepted: bool, logId: string)
    returns (r: Outcome<Fields>, charged: Option<ChargeRequest>)
    requires |random| == 16
    modifies store, ledger
    ensures store.orders == old(store.orders) && store.customers == old(store.customers)
    ensures charged == RecurringCharge(cfg, cardId, orderId, squareCustomerId, amountMinor, currencyIsoCode,
      paymentMode, random)
    ensures r == RecurringAnswer(cfg, cardId, orderId, squareCustomerId, paymentMode, charge, accepted, logId)
    ensures ledger.rows ==
      RecurringRows(old(ledger.rows), cfg, cardId, orderId, squareCustomerId, paymentMode, charge, accepted, logId)
    ensures store.txs == (if RecurringSettles(cfg, cardId, orderId, squareCustomerId, charge, accepted)
      then Moved(old(store.txs), orderTransactionId, ModeState(paymentMode)) else old(store.txs))
  {
    if cardId == "" || orderId == "" || squareCustomerId == "" {
      return Ok(ErrorResponse(IdsRequired)), None;
    }
    r, charged := ChargeRecurring(store, ledger, cfg, cardId, orderId, squareCustomerId, amountMinor, currencyIsoCode,
      orderTransactionId, paymentMode, random, charge, accepted, logId);
  }

  /** processRecurringPayment once the ids are given. */
  method ChargeRecurring(store: Store, ledger: Ledger, cfg: SystemConfig, cardId: string, orderId: string,
                                 squareCustomerId: string, amountMinor: int, currencyIsoCode: string,
                                 orderTransactionId: string, paymentMode: Value, random: seq<bv8>,
                                 charge: ProcessorCall, accepted: bool, logId: string)
    returns (r: Outcome<Fields>, charged: Option<ChargeRequest>)
    requires |random| == 16
    requires cardId != "" && orderId != "" && squareCustomerId != ""
    modifies store, ledger
    ensures store.orders == old(store.orders) && store.customers == old(store.customers)
    ensures charged == RecurringCharge(cfg, cardId, orderId, squareCustomerId, amountMinor, currencyIsoCode,
      paymentMode, random)
    ensures r == RecurringAnswer(cfg, cardId, orderId, squareCustomerId, paymentMode, charge, accepted, logId)
    ensures ledger.rows ==
      RecurringRows(old(ledger.rows), cfg, cardId, orderId, squareCustomerId, paymentMode, charge, accepted, logId)
    ensures store.txs == (if RecurringSettles(cfg, cardId, orderId, squareCustomerId, charge, accepted)
      then Moved(old(store.txs), orderTransactionId, ModeState(paymentMode)) else old(store.txs))
  {
    var key := NewKey(random);
    var currency := RecurringCurrency(currencyIsoCode);
    var location := LocationId(cfg);
    if location.Thrown? {
      return Thrown("TypeError"), None;
    }
    charged := Some(ChargeRequest(cardId, key, Some(squareCustomerId), amountMinor, currency, location.value,
      Autocomplete(paymentMode)));
    var answer := FinishRecurring(store, ledger, cfg, cardId, orderId, squareCustomerId, orderTransactionId,
      paymentMode, charge, accepted, logId);
    r := Ok(answer);
  }

  /** Once the request is built, each way the charge can go: a throw answers its
      message, a failure "Payment failed", a refused transition or a missing payment id
      their errors, all without a new row; a settled charge with a payment id appends
      its row and answers success when the record can be built. */
  lemma RecurringCases(rows: seq<Row>, cfg: SystemConfig, cardId: string, orderId: string, squareCustomerId: string,
                       paymentMode: Value, charge: ProcessorCall, accepted: bool, logId: string)
    ensures var answer := RecurringAnswer(cfg, cardId, orderId, squareCustomerId, paymentMode, charge, accepted, logId);
      var after := RecurringRows(rows, cfg, cardId, orderId, squareCustomerId, paymentMode, charge, accepted, logId);
      var settles := RecurringSettles(cfg, cardId, orderId, squareCustomerId, charge, accepted);
      (cardId == "" || orderId == "" || squareCustomerId == "") ==>
        answer == Ok(ErrorResponse(IdsRequired)) && !settles && after == rows
    ensures var answer := RecurringAnswer(cfg, cardId, orderId, squareCustomerId, paymentMode, charge, accepted, logId);
      var after := RecurringRows(rows, cfg, cardId, orderId, squareCustomerId, paymentMode, charge, accepted, logId);
      var settles := RecurringSettles(cfg, cardId, orderId, squareCustomerId, charge, accepted);
      (cardId != "" && orderId != "" && squareCustomerId != "" && LocationId(cfg).Thrown?) ==>
        answer == Thrown("TypeError") && !settles && after == rows
    ensures var answer := RecurringAnswer(cfg, cardId, orderId, squareCustomerId, paymentMode, charge, accepted, logId);
      var after := RecurringRows(rows, cfg, cardId, orderId, squareCustomerId, paymentMode, charge, accepted, logId);
      var settles := RecurringSettles(cfg, cardId, orderId, squareCustomerId, charge, accepted);
      (cardId != "" && orderId != "" && squareCustomerId != "" && LocationId(cfg).Ok?) ==>
      && answer.Ok?
      && (charge.Threw? ==> answer == Ok(ErrorResponse(charge.message)) && !settles && after == rows)
      && (charge.Returned? && !IsSuccess(Call(charge)) ==> answer == Ok(PaymentFailed(Call(charge))) && !settles && after == rows)
      && (IsSuccess(Call(charge)) && !accepted ==> answer == Ok(ErrorResponse(TransitionRejected)) && !settles && after == rows)
      && (IsSuccess(Call(charge)) && accepted ==> settles)
      && (IsSuccess(Call(charge)) && accepted && RecurringPaymentId(Call(charge)) == "" ==>
            answer == Ok(ErrorResponse(WriteRejected)) && after == rows)
      && (IsSuccess(Call(charge)) && accepted && RecurringPaymentId(Call(charge)) != "" ==>
            var payment := OrElse(Call(charge).payment, Arr(map[]));
            && after == rows + [ChargeRow(orderId, RecurringPaymentId(Call(charge)), payment, paymentMode, logId)]
            && answer == Ok(if ChargeRecord(payment, paymentMode, logId).Some?
                            then map["status" := Str("success"), "paymentId" := Str(RecurringPaymentId(Call(charge)))]
                            else ErrorResponse("TypeError")))
  {
    if charge.Threw? {
      assert !IsSuccess(Call(charge));
    }
  }
}

/** PaymentStatusSubscriber: a state-machine transition of a card-paid order
    transaction is mirrored at the processor (capture, void or refund). A processor
    error throws and so blocks the transition; success appends a ledger row and
    writes its enrichment. */
module StatusSubscriber {
  import opened Php
  import opened Library
  import opened Host
  import opened TransactionLedger
  import opened Enrichment
  import opened ResponseHandle
  import opened IdempotencyKey
  import opened PaymentRules

  /** The three transitions the listener acts on. */
  datatype Action = CaptureAction | VoidAction | RefundAction

  /** The `switch (true)` over the technical names of the from and to places. */
  function ActionFor(fromState: string, toState: string): (a: Option<Action>)
    ensures a == Some(CaptureAction) <==>
      fromState == TechnicalName(AuthorizedState) && toState == TechnicalName(PaidState)
    ensures a == Some(VoidAction) <==>
      fromState == TechnicalName(AuthorizedState) && toState == TechnicalName(Cancelled)
    ensures a == Some(RefundAction) <==>
      fromState == TechnicalName(PaidState) && toState == TechnicalName(Refunded)
  {
    if fromState == TechnicalName(AuthorizedState) && toState == TechnicalName(PaidState) then Some(CaptureAction)
    else if fromState == TechnicalName(AuthorizedState) && toState == TechnicalName(Cancelled) then Some(VoidAction)
    else if fromState == TechnicalName(PaidState) && toState == TechnicalName(Refunded) then Some(RefundAction)
    else None
  }

  /** The ledger status of the row each action appends. */
  function AppendedStatus(a: Action): TransactionStatus {
    match a
    case CaptureAction => Paid
    case VoidAction => Voided
    case RefundAction => Refund
  }

  /** The type the enrichment is logged with: a void is logged as PAID, as written. */
  function LoggedType(a: Action): string {
    match a
    case CaptureAction => StatusValue(Paid)
    case VoidAction => StatusValue(Paid)
    case RefundAction => StatusValue(Refund)
  }

  /** The code of the StateMachineException a processor error raises. */
  function FailureCode(a: Action): string {
    match a
    case CaptureAction => "SQUAREPAYMENTS_CAPTURE_FAILED"
    case VoidAction => "SQUAREPAYMENTS_VOID_FAILED"
    case RefundAction => "SQUAREPAYMENTS_REFUND_FAILED"
  }

  /** The processor call made, with its arguments. */
  datatype ProcessorRequest =
    | CaptureRequest(paymentId: string)
    | VoidRequest(paymentId: string)
    | RefundRequest(idempotencyKey: string, amount: int, currency: Option<string>, paymentId: string)

  predicate IsCreditCardTx(tx: OrderTx) {
    tx.paymentMethod.Some? && tx.paymentMethod.value.handler == CreditCardHandler
  }

  /** The ledger row the listener works from: the first row of the order of a
      credit-card order transaction, when every lookup succeeds. */
  function SquareRowOf(store: Store, ledger: Ledger, entityName: string, txId: string): (r: Option<nat>)
    reads store, ledger
    ensures r.Some? <==>
      && entityName == "order_transaction"
      && txId in store.txs && IsCreditCardTx(store.txs[txId])
      && store.OrderOfTx(txId).Some?
      && ledger.TransactionByOrderId(store.OrderOfTx(txId).value.id).Some?
    ensures r.Some? ==> r == ledger.TransactionByOrderId(store.OrderOfTx(txId).value.id)
  {
    if entityName != "order_transaction" || txId !in store.txs || !IsCreditCardTx(store.txs[txId]) then None
    else match store.OrderOfTx(txId)
      case None => None
      case Some(order) => ledger.TransactionByOrderId(order.id)
  }

  /** The refund amount as written: `(int)($totalPrice * 100)`, whatever the currency. */
  function RefundAmount(totalPrice: real): int {
    Trunc(totalPrice * 100.0)
  }

  /** `$array[$k] = ...` on a value: null, false and arrays take the write (null and
      false become a new array); a scalar throws an Error. A list keeps its entries
      under integer keys, which no later string-keyed read sees. */
  function Writable(v: Value): Option<Fields> {
    match v
    case Null => Some(map[])
    case Bool(b) => if b then None else Some(map[])
    case Arr(f) => Some(f)
    case List(_) => Some(map[])
    case _ => None
  }

  /** The refund payload after the listener copied the card details of the earlier
      ledger row into it. */
  function RefundPayload(payment: Value, prior: Fields): (r: Option<Fields>)
    ensures r.Some? ==> Field(r.value, "source_type") == Field(prior, "card_category")
    ensures r.Some? ==> Get(Card(r.value), "card_brand") == Field(prior, "payment_method_type")
    ensures r.Some? ==> Get(Card(r.value), "exp_month") == Field(prior, "expiry_month")
    ensures r.Some? ==> Get(Card(r.value), "exp_year") == Field(prior, "expiry_year")
    ensures r.Some? ==> Get(Card(r.value), "last_4") == Field(prior, "card_last_4")
    ensures payment == Null ==> r.Some?
    ensures payment.Str? || payment.Int? || payment.Float? || payment == Bool(true) ==> r.None?
    ensures r.Some? && payment.Arr? ==>
      forall k :: k in payment.fields && k != "source_type" && k != "card_details" ==> k in r.value && r.value[k] == payment.fields[k]
  {
    var base := Writable(payment);
    if base.None? then None
    else
      var details := Writable(Field(base.value, "card_details"));
      if details.None? then None
      else
        var card := Writable(Field(details.value, "card"));
        if card.None? then None
        else
          var card' := card.value
            ["card_brand" := Field(prior, "payment_method_type")]
            ["exp_month" := Field(prior, "expiry_month")]
            ["exp_year" := Field(prior, "expiry_year")]
            ["last_4" := Field(prior, "card_last_4")];
          Some(base.value["source_type" := Field(prior, "card_category")]
            ["card_details" := Arr(details.value["card" := Arr(card')])])
  }

  /** The payload as logTransaction's `array` parameter sees it: a non-array is a
      TypeError (None). */
  function LogArgument(payment: Value): (r: Option<Fields>)
    ensures r.Some? <==> IsArray(payment)
  {
    match payment
    case Arr(f) => Some(f)
    case List(_) => Some(map[])
    case _ => None
  }

  /** onStateChanged. `call` is what the processor answers to the one call made,
      `random` the 16 bytes of the refund's idempotency key, `logId` the enrichment's
      random payment id. The shop's own state is only read. */
  method OnStateChanged(store: Store, ledger: Ledger, entityName: string, txId: string,
                        fromState: string, toState: string, call: ProcessorCall, random: seq<bv8>, logId: string)
    returns (r: Outcome<Option<nat>>, request: Option<ProcessorRequest>)
    requires |random| == 16
    modifies ledger
    ensures old(SquareRowOf(store, ledger, entityName, txId)).None? || ActionFor(fromState, toState).None? ==>
      r == Ok(None) && request.None? && ledger.rows == old(ledger.rows)
    ensures request.Some? ==>
      && var row := old(SquareRowOf(store, ledger, entityName, txId));
      && row.Some? && ActionFor(fromState, toState).Some?
      && var squareTxId := old(ledger.rows)[row.value].transactionId;
      && var order := store.OrderOfTx(txId).value;
      && request.value == match ActionFor(fromState, toState).value
           case CaptureAction => CaptureRequest(squareTxId)
           case VoidAction => VoidRequest(squareTxId)
           case RefundAction => RefundRequest(Key(random), RefundAmount(store.txs[txId].totalPrice),
                                              order.currency, squareTxId)
    ensures request.Some? && !IsSuccess(Call(call)) ==>
      r == Thrown(FailureCode(ActionFor(fromState, toState).value)) && ledger.rows == old(ledger.rows)
    ensures request.Some? && IsSuccess(Call(call)) ==>
      && var row := old(SquareRowOf(store, ledger, entityName, txId)).value;
      && var squareTxId := old(ledger.rows)[row].transactionId;
      && var action := ActionFor(fromState, toState).value;
      && var tx := store.txs[txId];
      && Booked(old(ledger.rows), ledger.rows, store.OrderOfTx(txId).value.id,
           if tx.paymentMethod.value.name.Some? then tx.paymentMethod.value.name.value else "",
           Str(squareTxId), AppendedStatus(action), LoggedType(action),
           if action == RefundAction
             then RefundPayload(Call(call).payment, old(ledger.rows)[row].customFields)
             else LogArgument(Call(call).payment),
           logId, r)
  {
    var row := SquareRowOf(store, ledger, entityName, txId);
    var action := ActionFor(fromState, toState);
    if row.None? || action.None? {
      return Ok(None), None;
    }
    var squareTxId := ledger.rows[row.value].transactionId;
    var tx := store.txs[txId];
    var order := store.OrderOfTx(txId).value;
    match action.value {
      case CaptureAction =>
        request := Some(CaptureRequest(squareTxId));
      case VoidAction =>
        request := Some(VoidRequest(squareTxId));
      case RefundAction =>
        var key := NewKey(random);
        request := Some(RefundRequest(key, RefundAmount(tx.totalPrice), order.currency, squareTxId));
    }
    var result := Call(call);
    if !IsSuccess(result) {
      return Thrown(FailureCode(action.value)), request;
    }
    var methodName := if tx.paymentMethod.value.name.Some? then tx.paymentMethod.value.name.value else "";
    var payload := if action.value == RefundAction
      then RefundPayload(result.payment, ledger.rows[row.value].customFields)
      else LogArgument(result.payment);
    r := Book(ledger, order.id, methodName, Str(squareTxId), AppendedStatus(action.value), LoggedType(action.value),
                payload, logId);
  }

  /** Refund enrichment as written: the earlier row's stored category is fed back
      through getCardCategory, whose test for "card" is case-sensitive, so a credit
      card's refund is logged as a debit card. */
  lemma RefundRecategorisesCreditCard(payment: Value, prior: Fields, logId: string)
    requires Field(prior, "card_category") == Str("CreditCard")
    requires RefundPayload(payment, prior).Some?
    requires Extract(LoggedType(RefundAction), RefundPayload(payment, prior).value, logId).Some?
    ensures Extract(LoggedType(RefundAction), RefundPayload(payment, prior).value, logId).value.cardCategory
      == Some("DebitCard")
  {
    CreditCardReadsAsDebit();
  }

  /** getCardCategory('CreditCard') is 'DebitCard'. */
  lemma CreditCardReadsAsDebit()
    ensures CardCategory(Some("CreditCard")) == "DebitCard"
  {
    ContainsNeedsLowerC("CreditCard");
  }

  /** "card" never occurs in a string without a lower-case 'c'. */
  lemma {:induction false} ContainsNeedsLowerC(s: string)
    requires forall i :: 0 <= i < |s| ==> s[i] != 'c'
    ensures !Contains(s, "card")
    decreases |s|
  {
    if |s| > 0 {
      ContainsNeedsLowerC(s[1..]);
      if |s| >= 4 {
        assert s[..4][0] == s[0];
      }
    }
  }

  /** The corrected refund category: the earlier row's display category is already a
      category, so it is kept as stored. */
  function RefundCategory(prior: Fields): (c: Option<string>)
    ensures Field(prior, "card_category").Str? ==> c == Some(Field(prior, "card_category").s)
  {
    AsString(Field(prior, "card_category"))
  }

  /** With the corrected rule, each category a charge can be logged with survives into
      its refund. */
  lemma RefundKeepsCategory(scheme: Option<string>, prior: Fields)
    requires Field(prior, "card_category") == Str(CardCategory(scheme))
    ensures RefundCategory(prior) == Some(CardCategory(scheme))
    ensures RefundCategory(prior).value in {"-", "CreditCard", "DebitCard"}
  {
  }

  /** The refund amount as written over-refunds a zero-decimal currency a hundredfold:
      an order of 1500 JPY was charged 1500 but is refunded 150000. */
  lemma RefundAmountIgnoresZeroDecimal()
    ensures ToMinorUnit(Float(1500.0), "JPY") == 1500
    ensures RefundAmount(1500.0) == 150000
  {
    assert IsZeroDecimal("JPY") by {
      assert Upper("JPY") == "JPY";
    }
    RoundWhole(1500);
  }

  /** The corrected refund amount: the same minor-unit conversion as the charge. */
  function CorrectedRefundAmount(totalPrice: real, currency: string): int {
    ToMinorUnit(Float(totalPrice), currency)
  }

  /** In exact arithmetic, a full refund returns exactly the minor amount that was
      charged, in every currency; the amount as written agrees only outside the
      zero-decimal list. */
  lemma RefundMatchesCharge(charged: int, currency: string)
    ensures CorrectedRefundAmount(MajorUnits(charged, currency), currency) == charged
    ensures !IsZeroDecimal(currency) ==> RefundAmount(MajorUnits(charged, currency)) == charged
  {
    MinorUnitRoundTrip(charged, currency);
    if !IsZeroDecimal(currency) {
      assert MajorUnits(charged, currency) * 100.0 == charged as real;
    }
  }
}

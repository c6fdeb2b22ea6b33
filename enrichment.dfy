/** The enrichment record (TransactionData) and the logger that extracts it from a
    processor payload and writes it into a ledger row's custom fields. */
module Enrichment {
  import opened Php
  import opened Library
  import opened TransactionLedger
  import opened PhpFacts

  /** TransactionData: `txType` and `lastUpdate` are non-nullable strings, the other
      ten fields are nullable strings. */
  datatype TransactionData = TransactionData(
    txType: string,
    transactionId: Option<string>,
    paymentId: Option<string>,
    cardCategory: Option<string>,
    paymentMethodType: Option<string>,
    expiryMonth: Option<string>,
    expiryYear: Option<string>,
    cardLast4: Option<string>,
    lastUpdate: string,
    amount: Option<string>,
    currency: Option<string>,
    statusCode: Option<string>)

  const DisplayKeys: set<string> := {
    "type", "transaction_id", "payment_id", "card_category", "payment_method_type",
    "expiry_month", "expiry_year", "card_last_4", "last_update", "amount", "currency",
    "status_code"}

  /** The constructor called with its nine leading arguments: the last three default to null. */
  function NewTransactionData(
    txType: string, transactionId: Option<string>, paymentId: Option<string>,
    cardCategory: Option<string>, paymentMethodType: Option<string>,
    expiryMonth: Option<string>, expiryYear: Option<string>, cardLast4: Option<string>,
    lastUpdate: string): (d: TransactionData)
    ensures d.amount.None? && d.currency.None? && d.statusCode.None?
    ensures d.txType == txType && d.transactionId == transactionId && d.paymentId == paymentId
    ensures d.cardCategory == cardCategory && d.paymentMethodType == paymentMethodType
    ensures d.expiryMonth == expiryMonth && d.expiryYear == expiryYear && d.cardLast4 == cardLast4
    ensures d.lastUpdate == lastUpdate
  {
    TransactionData(txType, transactionId, paymentId, cardCategory, paymentMethodType,
      expiryMonth, expiryYear, cardLast4, lastUpdate, None, None, None)
  }

  /** toArray: the 12-key display record. */
  function ToArray(d: TransactionData): (m: Fields)
    ensures m.Keys == DisplayKeys
  {
    map[
      "type" := Str(d.txType),
      "transaction_id" := Nullable(d.transactionId),
      "payment_id" := Nullable(d.paymentId),
      "card_category" := Nullable(d.cardCategory),
      "payment_method_type" := Nullable(d.paymentMethodType),
      "expiry_month" := Nullable(d.expiryMonth),
      "expiry_year" := Nullable(d.expiryYear),
      "card_last_4" := Nullable(d.cardLast4),
      "last_update" := Str(d.lastUpdate),
      "amount" := Nullable(d.amount),
      "currency" := Nullable(d.currency),
      "status_code" := Nullable(d.statusCode)]
  }

  /** A nullable string read back from a display field; a non-string fails. */
  function NullableBack(v: Value): Option<Option<string>> {
    match v
    case Null => Some(None)
    case Str(s) => Some(Some(s))
    case _ => None
  }

  /** Reading a display record back into a TransactionData: the partner of ToArray. */
  function FromArray(m: Fields): Option<TransactionData> {
    if !(DisplayKeys <= m.Keys) || !m["type"].Str? || !m["last_update"].Str? then None
    else
      var transactionId := NullableBack(m["transaction_id"]);
      var paymentId := NullableBack(m["payment_id"]);
      var cardCategory := NullableBack(m["card_category"]);
      var methodType := NullableBack(m["payment_method_type"]);
      var month := NullableBack(m["expiry_month"]);
      var year := NullableBack(m["expiry_year"]);
      var last4 := NullableBack(m["card_last_4"]);
      var amount := NullableBack(m["amount"]);
      var currency := NullableBack(m["currency"]);
      var statusCode := NullableBack(m["status_code"]);
      if transactionId.None? || paymentId.None? || cardCategory.None? || methodType.None?
        || month.None? || year.None? || last4.None? || amount.None? || currency.None?
        || statusCode.None?
      then None
      else Some(TransactionData(m["type"].s, transactionId.value, paymentId.value,
        cardCategory.value, methodType.value, month.value, year.value, last4.value,
        m["last_update"].s, amount.value, currency.value, statusCode.value))
  }

  /** Every key of the display record holds its constructor argument unchanged. */
  lemma ToArrayRoundTrip(d: TransactionData)
    ensures FromArray(ToArray(d)) == Some(d)
  {
  }

  /** getCardCategory: a falsy scheme ('' or '0' included) gives '-', a scheme
      containing "card" a credit card, anything else a debit card. */
  function CardCategory(scheme: Option<string>): (c: string)
    ensures scheme.None? || scheme.value == "" || scheme.value == "0" ==> c == "-"
    ensures scheme.Some? && scheme.value != "" && scheme.value != "0" ==>
      (c == "CreditCard" <==> Contains(scheme.value, "card"))
    ensures c in {"-", "CreditCard", "DebitCard"}
  {
    if scheme.None? || !Truthy(Str(scheme.value)) then "-"
    else if Contains(scheme.value, "card") then "CreditCard"
    else "DebitCard"
  }

  /** `$x ?? null` passed to a `?string` parameter under strict types: null stays null,
      a string passes, any other value is a TypeError (None). */
  function NullableArg(v: Value): Option<Option<string>> {
    NullableBack(v)
  }

  /** `isset($x) ? (string)$x : null` */
  function StringifiedOrNull(v: Value): Option<string> {
    if v != Null then Some(ToStr(v)) else None
  }

  /** The card sub-object `card_details.card` of a payload. */
  function Card(response: Fields): Value {
    Get(Field(response, "card_details"), "card")
  }

  /** The record can be built: the id, `source_type`, the card brand, the currency and
      the status are each a string or null, and `updated_at ?? created_at` is a string. */
  predicate Buildable(response: Fields) {
    && NullableArg(Field(response, "id")).Some?
    && NullableArg(Field(response, "source_type")).Some?
    && NullableArg(Get(Card(response), "card_brand")).Some?
    && OrElse(Field(response, "updated_at"), Field(response, "created_at")).Str?
    && NullableArg(Get(Field(response, "amount_money"), "currency")).Some?
    && NullableArg(Field(response, "status")).Some?
  }

  /** The record carries the payload's id, card brand, expiry year, currency and status
      as they are. */
  predicate CarriesFields(d: TransactionData, response: Fields) {
    && Buildable(response)
    && d.transactionId == NullableArg(Field(response, "id")).value
    && d.paymentMethodType == NullableArg(Get(Card(response), "card_brand")).value
    && d.expiryYear == StringifiedOrNull(Get(Card(response), "exp_year"))
    && d.currency == NullableArg(Get(Field(response, "amount_money"), "currency")).value
    && d.statusCode == NullableArg(Field(response, "status")).value
  }

  /** logTransaction's extraction: the TransactionData built from a payment payload,
      or None where a non-string reaches a string-typed argument (a TypeError). */
  function Extract(txType: string, response: Fields, paymentId: string): (r: Option<TransactionData>)
    ensures r.Some? ==> r.value.txType == Upper(txType)
    ensures r.Some? ==> r.value.paymentId == Some(paymentId)
    ensures r.Some? ==> Field(response, "updated_at") != Null ==> Str(r.value.lastUpdate) == response["updated_at"]
    ensures r.Some? ==> Field(response, "updated_at") == Null ==> Str(r.value.lastUpdate) == Field(response, "created_at")
    ensures Field(response, "updated_at") == Null && Field(response, "created_at") == Null ==> r.None?
    ensures r.Some? ==>
      && NullableArg(Field(response, "source_type")).Some?
      && r.value.cardCategory == Some(CardCategory(NullableArg(Field(response, "source_type")).value))
    ensures r.Some? ==> r.value.expiryMonth == StringifiedOrNull(Get(Card(response), "exp_month"))
    ensures r.Some? ==> r.value.cardLast4 == StringifiedOrNull(Get(Card(response), "last_4"))
    ensures r.Some? ==> r.value.amount == StringifiedOrNull(Get(Field(response, "amount_money"), "amount"))
    ensures r.Some? <==> Buildable(response)
    ensures r.Some? ==> CarriesFields(r.value, response)
  {
    var card := Card(response);
    var transactionId := NullableArg(Field(response, "id"));
    var scheme := NullableArg(Field(response, "source_type"));
    var brand := NullableArg(Get(card, "card_brand"));
    var lastUpdate := OrElse(Field(response, "updated_at"), Field(response, "created_at"));
    var currency := NullableArg(Get(Field(response, "amount_money"), "currency"));
    var statusCode := NullableArg(Field(response, "status"));
    if transactionId.None? || scheme.None? || brand.None? || !lastUpdate.Str?
      || currency.None? || statusCode.None?
    then None
    else Some(TransactionData(
      Upper(txType),
      transactionId.value,
      Some(paymentId),
      Some(CardCategory(scheme.value)),
      brand.value,
      StringifiedOrNull(Get(card, "exp_month")),
      StringifiedOrNull(Get(card, "exp_year")),
      StringifiedOrNull(Get(card, "last_4")),
      lastUpdate.s,
      StringifiedOrNull(Get(Field(response, "amount_money"), "amount")),
      currency.value,
      statusCode.value))
  }

  /** The amount as written to the row: `(string)(round((int)$amount) / 100)`. */
  function DisplayAmount(amount: string): string {
    FloatText(StrToInt(amount) as real / 100.0)
  }

  /** The record as stored: a set amount is rewritten in major units, all else kept. */
  function Stored(record: Fields): (m: Fields)
    ensures m.Keys == record.Keys
    ensures forall k :: k in record && k != "amount" ==> m[k] == record[k]
    ensures "amount" in record && record["amount"] != Null ==>
      m["amount"] == Str(DisplayAmount(ToStr(record["amount"])))
    ensures "amount" in record && record["amount"] == Null ==> m["amount"] == Null
  {
    if Field(record, "amount") != Null then
      record["amount" := Str(DisplayAmount(ToStr(record["amount"])))]
    else record
  }

  /** An amount in minor units, as the processor reports it and the record carries it
      (as an int or its text), is stored in major units and reads back as n/100. */
  lemma StoredAmountIsMajorUnits(record: Fields, n: int)
    requires "amount" in record && (record["amount"] == Int(n) || record["amount"] == Str(IntText(n)))
    ensures Stored(record)["amount"] == Str(FloatText(n as real / 100.0))
    ensures StrToFloat(Stored(record)["amount"].s) == n as real / 100.0
  {
    assert ToStr(record["amount"]) == IntText(n);
    DisplayedIntText(n);
    CentsTextRoundTrip(n);
  }

  lemma DisplayedIntText(n: int)
    ensures DisplayAmount(IntText(n)) == FloatText(n as real / 100.0)
  {
    IntTextRoundTrip(n);
  }

  /** updateSquareTransactionCustomFields: an existing row's custom fields become the
      stored form of the record; an unknown row is left alone. */
  method UpdateCustomFields(ledger: Ledger, record: Fields, id: nat)
    modifies ledger
    ensures id < |old(ledger.rows)| ==>
      ledger.rows == old(ledger.rows)[id := old(ledger.rows)[id].(customFields := Stored(record))]
    ensures id >= |old(ledger.rows)| ==> ledger.rows == old(ledger.rows)
  {
    var stored := Stored(record);
    ledger.ReplaceCustomFields(id, stored);
  }

  /** logTransaction: builds the record (a TypeError aborts with `ok` false and no write)
      and, when a ledger row id is given, writes it into that row. `paymentId` is the
      30-character random hex id the source draws. */
  method LogTransaction(ledger: Ledger, txType: string, response: Fields, squareTxId: Option<nat>, paymentId: string)
    returns (ok: bool)
    modifies ledger
    ensures ok <==> Extract(txType, response, paymentId).Some?
    ensures ok && squareTxId.Some? && squareTxId.value < |old(ledger.rows)| ==>
      ledger.rows == old(ledger.rows)[squareTxId.value :=
        old(ledger.rows)[squareTxId.value].(customFields := Stored(ToArray(Extract(txType, response, paymentId).value)))]
    ensures !ok || squareTxId.None? || squareTxId.value >= |old(ledger.rows)| ==> ledger.rows == old(ledger.rows)
  {
    var data := Extract(txType, response, paymentId);
    if data.None? {
      return false;
    }
    if squareTxId.Some? {
      UpdateCustomFields(ledger, ToArray(data.value), squareTxId.value);
    }
    return true;
  }

  /** The record logTransaction builds from a payload; none when there is no array
      payload or the record cannot be built. */
  function Logged(logType: string, payload: Option<Fields>, logId: string): Option<TransactionData> {
    if payload.Some? then Extract(logType, payload.value, logId) else None
  }

  /** The ledger after addTransaction and logTransaction on the new row: an id the
      ledger cannot store is rejected with no row; otherwise exactly one row is
      appended, holding the stored record when the log succeeds and no custom fields
      when it throws its TypeError. */
  predicate Booked(before: seq<Row>, after: seq<Row>, orderId: string, methodName: string, transactionId: Value,
                   status: TransactionStatus, logType: string, payload: Option<Fields>, logId: string,
                   r: Outcome<Option<nat>>)
  {
    && (!Storable(transactionId) ==> r == Thrown(WriteRejected) && after == before)
    && (Storable(transactionId) ==>
          var record := Logged(logType, payload, logId);
          && r == (if record.Some? then Ok(Some(|before|)) else Thrown("TypeError"))
          && after == before + [Row(orderId, methodName, transactionId.s, status,
                                    if record.Some? then Stored(ToArray(record.value)) else map[])])
  }

  /** addTransaction followed by logTransaction on the new row: a rejected append
      throws, a payload that is not an array (None) or a record that cannot be built
      throws a TypeError; Ok carries the new row's id. */
  method Book(ledger: Ledger, orderId: string, methodName: string, transactionId: Value,
              status: TransactionStatus, logType: string, payload: Option<Fields>, logId: string)
    returns (r: Outcome<Option<nat>>)
    modifies ledger
    ensures Booked(old(ledger.rows), ledger.rows, orderId, methodName, transactionId, status, logType, payload, logId, r)
  {
    var id := ledger.AddTransaction(orderId, methodName, transactionId, status);
    if id.None? {
      return Thrown(WriteRejected);
    }
    if payload.None? {
      return Thrown("TypeError");
    }
    ghost var added := ledger.rows;
    var ok := LogTransaction(ledger, logType, payload.value, id, logId);
    assert ledger.rows[..|old(ledger.rows)|] == added[..|old(ledger.rows)|];
    r := if ok then Ok(id) else Thrown("TypeError");
  }
}

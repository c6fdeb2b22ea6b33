/** The pure rules of SquarePaymentService: the minor-unit conversion and the
    decisions authorizePayment takes before and after the charge. */
module PaymentRules {
  import opened Php
  import opened PhpFacts
  import opened Library

  /** The ISO 4217 currencies the plugin charges without a fraction. */
  const ZeroDecimalCurrencies: seq<string> := ["JPY", "KRW", "VND", "CLP", "UGX", "XAF", "XOF", "KMF"]

  /** Case-insensitive membership in the zero-decimal list. */
  predicate IsZeroDecimal(currency: string) {
    Upper(currency) in ZeroDecimalCurrencies
  }

  /** `str_replace(',', '.', $s)` */
  function CommaToDot(s: string): (r: string)
    ensures |r| == |s|
    ensures forall i :: 0 <= i < |s| ==> r[i] == (if s[i] == ',' then '.' else s[i])
  {
    if s == [] then [] else [if s[0] == ',' then '.' else s[0]] + CommaToDot(s[1..])
  }

  /** The amounts toMinorUnit accepts (`null|int|float|string`; a bool is coerced to
      int); an array is a TypeError. */
  predicate MinorUnitArg(v: Value) {
    !IsArray(v)
  }

  /** `(float)` on an accepted amount; strings have their commas made dots first. */
  function FloatOf(v: Value): real
    requires MinorUnitArg(v)
  {
    match v
    case Null => 0.0
    case Bool(b) => if b then 1.0 else 0.0
    case Int(i) => i as real
    case Float(r) => r
    case Str(s) => StrToFloat(CommaToDot(s))
  }

  /** toMinorUnit: null or '' is 0; otherwise the amount rounded half away from zero,
      after scaling by 100 unless the currency is zero-decimal. */
  function ToMinorUnit(amount: Value, currency: string): int
    requires MinorUnitArg(amount)
  {
    if amount == Null || amount == Str("") then 0
    else
      var value := FloatOf(amount);
      if IsZeroDecimal(currency) then Round(value) else Round(value * 100.0)
  }

  /** The major-unit amount a minor-unit amount stands for: the partner of ToMinorUnit. */
  function MajorUnits(minor: int, currency: string): real {
    if IsZeroDecimal(currency) then minor as real else minor as real / 100.0
  }

  lemma RoundWhole(n: int)
    ensures Round(n as real) == n
  {
    if n >= 0 {
      assert (n as real + 0.5).Floor == n;
    } else {
      assert (-(n as real) + 0.5).Floor == -n;
    }
  }

  /** Converting a major-unit amount that has a whole number of minor units gives back
      exactly that number of minor units. */
  lemma MinorUnitRoundTrip(minor: int, currency: string)
    ensures ToMinorUnit(Float(MajorUnits(minor, currency)), currency) == minor
  {
    RoundWhole(minor);
    if !IsZeroDecimal(currency) {
      assert MajorUnits(minor, currency) * 100.0 == minor as real;
    }
  }

  lemma {:induction false} CommaToDotFixed(s: string)
    requires forall i :: 0 <= i < |s| ==> s[i] != ','
    ensures CommaToDot(s) == s
  {
  }

  lemma {:induction false} CommaToDotIdempotent(s: string)
    ensures CommaToDot(CommaToDot(s)) == CommaToDot(s)
  {
    CommaToDotFixed(CommaToDot(s));
  }

  /** A string amount with decimal commas converts like the same amount with dots. */
  lemma CommaAmount(s: string, currency: string)
    ensures ToMinorUnit(Str(s), currency) == ToMinorUnit(Str(CommaToDot(s)), currency)
  {
    CommaToDotIdempotent(s);
  }

  /** Null and the empty string are zero in any currency. */
  lemma EmptyAmountIsZero(currency: string)
    ensures ToMinorUnit(Null, currency) == 0 && ToMinorUnit(Str(""), currency) == 0
  {
  }

  /** What PHP prints for a float is never empty and has no comma. */
  lemma FloatTextCommaFree(r: real)
    ensures FloatText(r) != ""
    ensures forall i :: 0 <= i < |FloatText(r)| ==> FloatText(r)[i] != ','
  {
    var a := if r < 0.0 then -r else r;
    var k := Places(a, 0);
    var scaled: nat := Scaled(a, k);
    var p := Pow10(k);
    var d := NatText(scaled / p);
    var pad := PadDigits(scaled % p, k);
    assert FloatText(r) == DecimalText(r < 0.0 && scaled != 0, scaled / p, scaled % p, k);
    assert forall i :: 0 <= i < |d| ==> d[i] != ',';
    assert forall i :: 0 <= i < |pad| ==> pad[i] != ',';
  }

  /** A whole number of cents printed as PHP prints the amount (a price string such as
      "19.99") converts back to exactly those cents. */
  lemma PrintedAmountRoundTrip(minor: int, currency: string)
    requires !IsZeroDecimal(currency)
    ensures ToMinorUnit(Str(FloatText(minor as real / 100.0)), currency) == minor
  {
    var text := FloatText(minor as real / 100.0);
    FloatTextCommaFree(minor as real / 100.0);
    CommaToDotFixed(text);
    CentsTextRoundTrip(minor);
    assert FloatOf(Str(text)) == minor as real / 100.0;
    assert FloatOf(Str(text)) * 100.0 == minor as real;
    RoundWhole(minor);
  }

  // ------------------------------------------------------------ authorizePayment

  /** `$data['paymentToken'] ?? $data['cardId'] ?? null`: the card id is used only when
      there is no token at all. */
  function SourceId(data: Fields): (v: Value)
    ensures Field(data, "paymentToken") != Null ==> v == data["paymentToken"]
    ensures Field(data, "paymentToken") == Null ==> v == Field(data, "cardId")
  {
    OrElse(Field(data, "paymentToken"), Field(data, "cardId"))
  }

  /** `isset($data['isSubscription']) ? (bool)$data['isSubscription'] : false` */
  predicate IsSubscriptionCharge(data: Fields) {
    Truthy(Field(data, "isSubscription"))
  }

  /** minorAmount is exactly `true`, `1` or `'1'`. */
  predicate MinorAmountFlag(data: Fields) {
    var v := Field(data, "minorAmount");
    v == Bool(true) || v == Int(1) || v == Str("1")
  }

  /** `(int)` cast. */
  function IntCast(v: Value): int {
    match v
    case Null => 0
    case Bool(b) => if b then 1 else 0
    case Int(i) => i
    case Float(r) => Trunc(r)
    case Str(s) => StrToInt(s)
    case Arr(m) => if |m| > 0 then 1 else 0
    case List(xs) => if |xs| > 0 then 1 else 0
  }

  /** `strtoupper($data['currency'] ?? <context currency>)`: scalars are coerced to
      strings; an array is a TypeError (None). */
  function ChargeCurrency(data: Fields, contextCurrency: string): (r: Option<string>)
    ensures Field(data, "currency") == Null ==> r == Some(Upper(contextCurrency))
    ensures Field(data, "currency").Str? ==> r == Some(Upper(data["currency"].s))
    ensures r.None? <==> IsArray(Field(data, "currency"))
    ensures r.Some? ==> |r.value| == |ToStr(OrElse(Field(data, "currency"), Str(contextCurrency)))|
  {
    var v := OrElse(Field(data, "currency"), Str(contextCurrency));
    if IsArray(v) then None else Some(Upper(ToStr(v)))
  }

  /** The charged amount: the raw integer when minorAmount is set, the minor-unit
      conversion otherwise (an array amount is a TypeError, None). */
  function ChargeAmount(data: Fields, currency: string): (r: Option<int>)
    ensures MinorAmountFlag(data) ==> r == Some(IntCast(Field(data, "amount")))
    ensures !MinorAmountFlag(data) && MinorUnitArg(Field(data, "amount")) ==>
      r == Some(ToMinorUnit(Field(data, "amount"), currency))
    ensures r.None? <==> !MinorAmountFlag(data) && IsArray(Field(data, "amount"))
  {
    if MinorAmountFlag(data) then Some(IntCast(OrElse(Field(data, "amount"), Int(0))))
    else if MinorUnitArg(Field(data, "amount")) then Some(ToMinorUnit(Field(data, "amount"), currency))
    else None
  }

  /** Autocomplete (capture at once) iff the configured mode is AUTHORIZE_AND_CAPTURE. */
  predicate Autocomplete(paymentMode: Value) {
    paymentMode == Str(AuthorizeAndCapture)
  }

  /** What authorizePayment does about the card after a successful charge. */
  datatype CardFollowUp = CreateCard | FetchCard(cardId: Value) | NoCard

  function FollowUp(data: Fields): (r: CardFollowUp)
    ensures r.CreateCard? <==>
      Truthy(Field(data, "saveCard")) || (!Truthy(Field(data, "cardId")) && IsSubscriptionCharge(data))
    ensures r.FetchCard? <==> !r.CreateCard? && IsSubscriptionCharge(data) && Truthy(Field(data, "cardId"))
    ensures r.FetchCard? ==> r.cardId == data["cardId"]
  {
    if Truthy(Field(data, "saveCard")) || (!Truthy(Field(data, "cardId")) && IsSubscriptionCharge(data)) then CreateCard
    else if IsSubscriptionCharge(data) && Truthy(Field(data, "cardId")) then FetchCard(data["cardId"])
    else NoCard
  }

  /** requiringPayment's currency: the order's ISO code upper-cased, USD when missing. */
  function OrderCurrency(iso: Option<string>): string {
    Upper(if iso.Some? then iso.value else "USD")
  }

  /** processRecurringPayment's currency: `strtoupper($iso ?: 'USD')`. */
  function RecurringCurrency(iso: string): string {
    Upper(if Truthy(Str(iso)) then iso else "USD")
  }
}

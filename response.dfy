/** ResponseHandleService: normalises whatever an SDK call returned into a tagged
    success/error response. */
module ResponseHandle {
  import opened Php

  /** An SDK error object: `getDetail()` and `getCategory()`. */
  datatype SdkError = SdkError(detail: Option<string>, category: Option<string>)

  /** The shapes the normaliser tells apart.
      - ArrayResult: a PHP array, read through its string keys (a list-shaped array has
        no `errors` or `payment` key and behaves as the empty map).
      - ObjectResult: an SDK response object. `errors` is what `getErrors()` returns
        (empty when the method is missing or returns nothing); `payment` and `refund`
        are the JSON forms of the objects `getPayment()` / `getRefund()` return, None
        when the method is missing or returns null.
      - Scalar: null, a boolean, a number or a string. */
  datatype SdkResult =
    | ArrayResult(fields: Fields)
    | ObjectResult(errors: seq<SdkError>, payment: Option<Value>, refund: Option<Value>)
    | Scalar

  /** The normalised response: `['status' => 'success', 'payment' => ...]` or
      `['status' => 'error', 'message' => ...]`. */
  datatype Processed = Success(payment: Value) | Failure(message: Value)

  const GenericError: string := "Payment creation failed"

  /** Whether the result reports errors, read independently of the message chosen. */
  predicate ReportsErrors(res: SdkResult) {
    (res.ArrayResult? && Truthy(Field(res.fields, "errors")))
    || (res.ObjectResult? && |res.errors| > 0)
  }

  /** `$errors[0] ?? null` on the `errors` entry of an array result. */
  function FirstEntry(errors: Value): Value {
    match errors
    case List(xs) => if |xs| > 0 then xs[0] else Null
    case Arr(m) => Field(m, "0")
    case _ => Null
  }

  /** The message of an array-shaped error entry: detail ?? category ?? generic;
      an entry that is not an array gives the generic message. */
  function ArrayErrorMessage(entry: Value): Value {
    if IsArray(entry) then OrElse(Get(entry, "detail"), OrElse(Get(entry, "category"), Str(GenericError)))
    else Str(GenericError)
  }

  function ObjectErrorMessage(e: SdkError): string {
    if e.detail.Some? then e.detail.value
    else if e.category.Some? then e.category.value
    else GenericError
  }

  /** process / handleResult */
  function Process(res: SdkResult): (r: Processed)
    ensures r.Failure? <==> ReportsErrors(res)
  {
    match res
    case ArrayResult(f) =>
      if Truthy(Field(f, "errors")) then Failure(ArrayErrorMessage(FirstEntry(f["errors"])))
      else Success(Field(f, "payment"))
    case ObjectResult(errors, payment, refund) =>
      if |errors| > 0 then Failure(Str(ObjectErrorMessage(errors[0])))
      else if payment.Some? then Success(payment.value)
      else if refund.Some? then Success(refund.value)
      else Success(Null)
    case Scalar => Success(Null)
  }

  /** The response as the PHP array callers read. */
  function AsArray(p: Processed): Fields {
    match p
    case Success(payment) => map["status" := Str("success"), "payment" := payment]
    case Failure(message) => map["status" := Str("error"), "message" := message]
  }

  /** `$processed['status'] === 'success'` */
  predicate IsSuccess(p: Processed)
    ensures IsSuccess(p) <==> p.Success?
  {
    AsArray(p)["status"] == Str("success")
  }

  /** Every response has status exactly success or error; an error carries a message
      and no payment, a success a payment and no message. */
  lemma ResponseShape(res: SdkResult)
    ensures var m := AsArray(Process(res));
      && "status" in m && (m["status"] == Str("success") || m["status"] == Str("error"))
      && (m["status"] == Str("error") ==> m.Keys == {"status", "message"})
      && (m["status"] == Str("success") ==> m.Keys == {"status", "payment"})
    ensures IsSuccess(Process(res)) <==> !ReportsErrors(res)
  {
  }

  /** An array result with a non-empty `errors` entry: the first entry's detail, else
      its category, else the generic message; a first entry that is not an array gives
      the generic message. */
  lemma ArrayErrorsGiveFailure(f: Fields)
    requires Truthy(Field(f, "errors"))
    ensures var entry := FirstEntry(f["errors"]);
      Process(ArrayResult(f)) == Failure(
        if !IsArray(entry) then Str(GenericError)
        else if Get(entry, "detail") != Null then Get(entry, "detail")
        else if Get(entry, "category") != Null then Get(entry, "category")
        else Str(GenericError))
  {
  }

  /** An array result without errors succeeds with its `payment` entry, or null. */
  lemma ArrayWithoutErrorsSucceeds(f: Fields)
    requires !Truthy(Field(f, "errors"))
    ensures Process(ArrayResult(f)) == Success(if "payment" in f then f["payment"] else Null)
  {
  }

  /** An object result reporting errors fails with detail ?? category ?? generic. */
  lemma ObjectErrorsGiveFailure(errors: seq<SdkError>, payment: Option<Value>, refund: Option<Value>)
    requires |errors| > 0
    ensures Process(ObjectResult(errors, payment, refund)).Failure?
    ensures var msg := Process(ObjectResult(errors, payment, refund)).message;
      (errors[0].detail.Some? ==> msg == Str(errors[0].detail.value))
      && (errors[0].detail.None? && errors[0].category.Some? ==> msg == Str(errors[0].category.value))
      && (errors[0].detail.None? && errors[0].category.None? ==> msg == Str(GenericError))
  {
  }

  /** On the object success path the payment wins; the refund is used only when there
      is no payment object. */
  lemma ObjectPayloadPrecedence(payment: Option<Value>, refund: Option<Value>)
    ensures payment.Some? ==> Process(ObjectResult([], payment, refund)) == Success(payment.value)
    ensures payment.None? && refund.Some? ==> Process(ObjectResult([], payment, refund)) == Success(refund.value)
    ensures payment.None? && refund.None? ==> Process(ObjectResult([], payment, refund)) == Success(Null)
  {
  }

  /** Null, strings and other scalars are a success without payload. */
  lemma ScalarSucceedsWithNull()
    ensures Process(Scalar) == Success(Null)
  {
  }

  /** A processor call as the try/catch wrappers see it: the result object, or the
      message of the exception it threw. */
  datatype ProcessorCall = Returned(result: SdkResult) | Threw(message: string)

  /** The wrappers' `catch`: an exception becomes an error response with its message. */
  function Call(c: ProcessorCall): (r: Processed)
    ensures c.Threw? ==> r == Failure(Str(c.message))
    ensures c.Returned? ==> r == Process(c.result)
  {
    match c
    case Returned(res) => Process(res)
    case Threw(msg) => Failure(Str(msg))
  }

  /** `$processed['payment']['id'] ?? ''` */
  function PaymentId(p: Processed): Value {
    if p.Success? then OrElse(Get(p.payment, "id"), Str("")) else Str("")
  }
}

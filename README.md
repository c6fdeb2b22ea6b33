# Square payments for Shopware — a Dafny model of the payment core

This project models the payment state-synchronisation core of the SquarePayments
Shopware plugin, with the pure helpers around it, and proves properties of that model.

- **Webhook reconciler** (`webhook.dfy`). Processor notifications are mapped to
  order-transaction states and run through the ordered guard chain. At most one
  state-machine transition is made.
- **Response normaliser** (`response.dfy`). SDK results are turned into
  `success`/`error` responses.
- **Payment service** (`payment_rules.dfy`, `idempotency.dfy`, `payment_service.dfy`).
  This covers:
  - the minor-unit conversion;
  - the version-4 UUID idempotency key (section 5.4 of RFC 9562);
  - the storefront charge and the recurring charges;
  - the choice of an order's latest transaction.
- **State-transition listener** (`status_subscriber.dfy`). Capture, void or refund is
  mirrored at the processor, and the result is written to the ledger.
- **Gateways** (`credit_card.dfy`, `apple_pay.dfy`, `google_pay.dfy`). They cover
  `pay`, `finalize`, `recurring` and `supports`.
- **Transaction ledger and enrichment** (`ledger.dfy`, `enrichment.dfy`). The ledger
  is the `square_payments_transaction` table. Enrichment is the 12-key
  TransactionData display record and the logger that writes it.
- **Customer, card and subscription bookkeeping** (`card_service.dfy`,
  `card_choice.dfy`, `subscription_id.dfy`, `subscription_rows.dfy`,
  `provider_labels.dfy`).
- **Configuration, credential selection and endpoint URLs** (`config.dfy`,
  `endpoints.dfy`).

`php.dfy` and `php_facts.dfy` model the PHP semantics the plugin relies on:
- values and arrays;
- `??`, truthiness, `(string)` and `(int)` casts;
- `round` (half away from zero), `strtoupper` and `trim`;
- number-to-text conversion.

`host.dfy` and `library.dfy` model the shop's entities and the plugin's enums. The
shop's repositories form one mutable `Store`. The state handler's `paid`,
`authorize` and `fail` calls are `Store.Transition`. The processor's answers,
random bytes and whether the host's state machine accepts a transition are inputs
of the methods that need them.

Several parts of the source change state in place: the ledger, the card-choice
table, the configuration, the storefront page and the order transactions. Each is a
class whose methods state the whole new state. The loops of the source are methods
with invariants, proved against a specification function:
- the latest-transaction choice;
- the idempotency key built in place on a byte array;
- the subscription overview loops;
- the saved-card list;
- the dynamic URL builder.

## Model

| member | source | states |
|---|---|---|
| WebHook.MapStatus | src/Service/WebHookService.php:119-128 | APPROVED, COMPLETED, VOIDED and REFUNDED map exactly to authorized, paid, cancelled and refunded (each an if-and-only-if); every other status maps to no state |
| WebHook.DecideMovesExactly | src/Service/WebHookService.php:84-103 | the guard chain moves iff the status is known and the move is allowed: not already in the target, not out of refunded/cancelled, to refunded only from paid, to paid only from authorized. The move goes to the status's state |
| WebHook.KeepAnswers | src/Service/WebHookService.php:84-102 | when the chain does not move, it answers true exactly when the state already is the target or is terminal, even for an unknown status; otherwise false |
| WebHook.RedeliveryIsIdempotent | src/Service/WebHookService.php:84-87 | after a move, the same notification is answered true with no further move |
| WebHook.OrderTransactionOf | src/Service/WebHookService.php:74-82 | the first transaction the order lists that exists and belongs to it; none iff the order is missing or lists no such transaction |
| WebHook.WebhookTarget | src/Service/WebHookService.php:67-82 | a target exists iff a ledger row carries the payment id and that row's order has a transaction; the target is an existing transaction of that row's order |
| WebHook.SyncedMovesOnlyTarget | src/Service/WebHookService.php:65-117 | reconciling changes at most the target's state, and changes it exactly when the guard chain moves and the state machine accepts |
| WebHook.Sync | src/Service/WebHookService.php:65-117 | no target: false, no transition. A keep decision: its answer, no transition. A move: exactly one transition to the target when the state machine accepts it (true), none when it throws (false) |
| WebHook.HandleEvent | src/Service/WebHookService.php:130-158 | an absent event object gives false and changes nothing. A non-string payment id or status is a TypeError and changes nothing. Otherwise the transactions are those the reconciliation of the event's payment id and status leaves, and the answer is whether the event's own id is non-empty |
| WebHook.Accept | src/Service/WebHookService.php:45-63 | an undecodable payload, a missing type or any type but the four payment/refund events gives false and changes nothing. True exactly for such an event whose object has string ids and a non-empty own id. A payment event is reconciled on the payment's id, a refund event on its `payment_id` |
| WebHook.AcceptResponse | src/Storefront/Controller/WebHookController.php:26-27 | status 200 iff the webhook was accepted, 400 otherwise |
| WebHook.DeleteWithoutSubscription | src/Service/WebHookService.php:186-192 | without a stored subscription id for the environment, delete answers false without a processor call |
| WebHook.StatusWithoutSubscription | src/Service/WebHookService.php:198-203 | without a stored subscription id, getStatus answers `status => not configured` |
| ResponseHandle.Process | src/Service/ResponseHandleService.php:16-56 | the response is an error iff the result reports errors (a non-empty `errors` entry or `getErrors()`) |
| ResponseHandle.ResponseShape | src/Service/ResponseHandleService.php:25-56 | every response has status exactly success or error; an error carries exactly a message, a success exactly a payment |
| ResponseHandle.ArrayErrorsGiveFailure | src/Service/ResponseHandleService.php:29-35 | an array result with errors fails with the first error's detail, else its category, else the generic text; a first error that is not an array gives the generic text |
| ResponseHandle.ArrayWithoutErrorsSucceeds | src/Service/ResponseHandleService.php:37-39 | an array result without errors succeeds with its `payment` entry, or null |
| ResponseHandle.ObjectErrorsGiveFailure | src/Service/ResponseHandleService.php:43-47 | an object result with errors fails with detail, else category, else the generic text |
| ResponseHandle.ObjectPayloadPrecedence | src/Service/ResponseHandleService.php:49-55 | on the object success path the payment wins and the refund is used only without a payment |
| ResponseHandle.ScalarSucceedsWithNull | src/Service/ResponseHandleService.php:49-55 | a result that is neither an array nor an object succeeds with a null payment |
| ResponseHandle.Call | src/Service/SquarePaymentService.php:61-73 | a thrown exception becomes an error response with its message; a returned result is normalised |
| TransactionLedger.Ledger.AddTransaction | src/Service/SquarePaymentsTransactionService.php:22-52 | a non-empty string processor id appends exactly one row with the given order, method name, id and status, and returns that row's fresh id; any other id writes nothing |
| TransactionLedger.AppendTwice | src/Service/SquarePaymentsTransactionService.php:22-52 | two identical calls create two distinct rows with equal content; the order's first-row lookup finds a row no later than the first |
| TransactionLedger.Ledger.TransactionByOrderId | src/Service/SquarePaymentsTransactionService.php:54-64 | the earliest appended row of the order; none iff the order has no row |
| TransactionLedger.Ledger.TransactionByProcessorId | src/Service/WebHookService.php:67-73 | the earliest appended row carrying the processor id; none iff no row carries it |
| TransactionLedger.Ledger.ReplaceCustomFields | src/Service/TransactionLogger.php:76-87 | an existing row's custom fields are replaced wholesale; a missing row leaves the ledger unchanged |
| Enrichment.NewTransactionData | src/Service/TransactionData.php:22-48 | each of the nine given arguments is kept in its field; amount, currency and status code default to null |
| Enrichment.ToArray | src/Service/TransactionData.php:50-66 | the display record has exactly the 12 keys |
| Enrichment.ToArrayRoundTrip | src/Service/TransactionData.php:22-66 | reading the display record back gives the record itself: every key holds its constructor argument unchanged |
| Enrichment.CardCategory | src/Service/TransactionLogger.php:93-99 | a missing or falsy scheme gives '-'; otherwise CreditCard iff the scheme contains "card", else DebitCard |
| Enrichment.Extract | src/Service/TransactionLogger.php:25-52 | the record is built iff the id, source_type, card brand, currency and status are each a string or null and `updated_at ?? created_at` is a string. Then the type is upper-cased, the payment id is the given one, and the id, brand, currency and status are carried as they are. The category comes from source_type. Expiry, last-4 and amount are stringified when present, else null |
| Enrichment.Stored | src/Service/TransactionLogger.php:65-75 | the stored record has the same keys and keeps every value except the amount. A set amount becomes the text of its integer value divided by 100; a null amount stays null |
| Enrichment.StoredAmountIsMajorUnits | src/Service/TransactionLogger.php:70-72 | an amount of n minor units, as an int or its text, is stored as the printed n/100 and reads back as n/100 |
| Enrichment.UpdateCustomFields | src/Service/TransactionLogger.php:65-88 | an existing ledger row gets the stored record as its custom fields; a missing row leaves the ledger unchanged |
| Enrichment.LogTransaction | src/Service/TransactionLogger.php:25-60 | it succeeds iff the record can be built; then the given row (if it exists) gets it; otherwise nothing is written |
| Enrichment.Book | src/Gateways/CreditCard.php:119-129 | a rejected processor id throws without a write. Otherwise exactly one row is appended with the given fields and the earlier rows kept. The call returns the new row's id iff the payload gives a record, and that record is then the new row's custom fields; otherwise the log's TypeError escapes and the new row keeps no custom fields |
| IdempotencyKey.Bin2Hex | src/Service/SquarePaymentService.php:286 | two lower-case hex digits per byte, high nibble first |
| IdempotencyKey.KeyLayout | src/Service/SquarePaymentService.php:277-287 | the key has 36 characters with dashes at 8, 13, 18 and 23. Character 14 is '4' and character 19 is one of 8, 9, a, b. Every other character is the input's nibble at its place |
| IdempotencyKey.GenerateIdempotencyKey | src/Service/SquarePaymentService.php:277-287 | the byte array gets the version and variant bits set in place, and the key is the layout of the original bytes |
| IdempotencyKey.NewKey | src/Service/SquarePaymentService.php:277-287 | the key generated from 16 random bytes is the layout of those bytes |
| PaymentRules.CommaToDot | src/Service/SquarePaymentService.php:265-267 | every comma becomes a dot, every other character is kept |
| PaymentRules.MinorUnitRoundTrip | src/Service/SquarePaymentService.php:260-275 | converting the major-unit amount of any minor-unit amount gives that amount back, for zero-decimal and other currencies |
| PaymentRules.CommaAmount | src/Service/SquarePaymentService.php:265-268 | a string amount converts as its comma-to-dot text |
| PaymentRules.EmptyAmountIsZero | src/Service/SquarePaymentService.php:262-264 | null and '' convert to 0 |
| PaymentRules.PrintedAmountRoundTrip | src/Service/SquarePaymentService.php:260-275 | the printed two-decimal text of a cent amount converts back to that amount |
| PaymentRules.CommaToDotIdempotent | src/Service/SquarePaymentService.php:265-267 | applying the comma replacement twice changes nothing more |
| PaymentRules.SourceId | src/Service/SquarePaymentService.php:95-99 | the payment token when it is set (even when empty); the card id only without a token |
| PaymentRules.ChargeCurrency | src/Service/SquarePaymentService.php:111-113 | the posted currency upper-cased, the context currency without one; an array is a TypeError |
| PaymentRules.ChargeAmount | src/Service/SquarePaymentService.php:114-118 | with minorAmount true/1/'1' the integer amount is sent unchanged, otherwise the minor-unit conversion; an array amount is a TypeError |
| PaymentRules.FollowUp | src/Service/SquarePaymentService.php:138-161 | a card is created iff saveCard is truthy or there is no card id on a subscription; a subscription with a card id fetches that card; otherwise nothing |
| PaymentService.ModeStatus | src/Service/SquarePaymentService.php:349-350 | paid iff the mode autocompletes, authorized otherwise |
| PaymentService.LatestOf | src/Service/SquarePaymentService.php:302-323 | none iff there are no transactions; otherwise one with a maximal creation time (missing counts as 0), and no later transaction ties it |
| PaymentService.LatestOrderTransaction | src/Service/SquarePaymentService.php:302-323 | the loop returns the latest transaction of the specification |
| PaymentService.AttachCard | src/Service/SquarePaymentService.php:138-161 | without a follow-up the response is the charge response. A created card goes through addCard with the charge's payment id as its source and the customer's name: the response gains addCard's `card`, an addCard TypeError becomes an error response, and the customers are those addCard leaves. A fetched card is the saved-card lookup's; an array card id is a TypeError response |
| PaymentService.AuthorizePayment | src/Service/SquarePaymentService.php:88-168 | without a source id it returns the error before any customer lookup or charge. A customer lookup's TypeError escapes, including one of an array name, email, phone or address entry in the billing address. A charge is sent iff the source, customer, currency, amount and location id are all usable. It carries the source, the key of the random bytes, the looked-up Square customer, the upper-cased currency, the converted amount, the configured location and autocomplete iff capture mode. A failed charge or no follow-up returns the charge response; a follow-up is AttachCard's |
| PaymentService.Settle | src/Service/SquarePaymentService.php:212-230 | a refused transition changes nothing. An accepted one moves the transaction to paid or authorized by mode. A storable id appends one row with the matching status whose custom fields are the stored enrichment record; the log fails iff no record can be built |
| PaymentService.RequiringPayment | src/Service/SquarePaymentService.php:171-238 | empty ids, a missing order or an order without transactions give their errors with no charge. A location id that is not a string is a TypeError before the charge. The charge uses the card, the customer, the order total in minor units, the order currency (USD when missing) and the configured location. A thrown charge answers the exception's message, a failed one 'Payment failed', a refused transition its error, all with no change. Success moves the latest transaction and appends one enriched row |
| PaymentService.OrderCharge | src/Service/SquarePaymentService.php:191-205 | the request carries the card, the customer, the key, the location, the order total in minor units of the order currency (USD when missing) and autocomplete by mode |
| PaymentService.FinishRequiring | src/Service/SquarePaymentService.php:207-238 | a thrown charge answers its message, a failed one 'Payment failed', a refused transition its error, all with no change. Success moves the transaction and appends one enriched row; the enrichment's TypeError escapes |
| PaymentService.ProcessRecurringPayment | src/Service/SquarePaymentService.php:324-394 | the request sent is RecurringCharge's, the answer RecurringAnswer's, the ledger RecurringRows'. The transaction moves to the mode's state exactly when the charge was sent, succeeded and the host accepted |
| PaymentService.RecurringCharge | src/Service/SquarePaymentService.php:333-350 | a request exists iff the ids are non-empty and the location id is a string. It carries the card, the customer, the key, the given amount, the upper-cased currency (USD when empty), the configured location and autocomplete by mode |
| PaymentService.ChargeRecurring | src/Service/SquarePaymentService.php:337-393 | with the ids given, the request, the answer, the ledger and the transaction are those ProcessRecurringPayment states |
| PaymentService.FinishRecurring | src/Service/SquarePaymentService.php:352-393 | once the request is built, the answer, the ledger and the transaction's move follow the charge, the host and the record, every throwable caught |
| PaymentService.RecurringCases | src/Service/SquarePaymentService.php:333-393 | empty ids answer their error and a non-string location id is a TypeError, both with no row. A thrown charge answers its message, a failed one 'Payment failed', a refused transition or an empty payment id their errors, all with no row. A settled charge with a payment id appends its row and answers success with the id when the record can be built, a TypeError response otherwise |
| StatusSubscriber.ActionFor | src/EventSubscriber/PaymentStatusSubscriber.php:104-174 | authorized→paid captures, authorized→cancelled voids, paid→refunded refunds (each an if-and-only-if); any other pair does nothing |
| StatusSubscriber.SquareRowOf | src/EventSubscriber/PaymentStatusSubscriber.php:70-98 | a row is used iff the entity is an order transaction of the credit card handler with an order and a ledger row; it is the order's earliest appended row |
| StatusSubscriber.RefundPayload | src/EventSubscriber/PaymentStatusSubscriber.php:162-167 | the refund payload carries the earlier row's category, brand, expiry and last four; other payment entries are kept; a scalar payment cannot take the writes |
| StatusSubscriber.OnStateChanged | src/EventSubscriber/PaymentStatusSubscriber.php:68-175 | ignored events make no call and no write. The call is capture, void or refund of the ledger's processor id, the refund with a fresh key. A processor error throws the action's code with no write. Success appends one row with status paid, voided or refund, and returns its id iff the logged payload (for a refund, with the earlier row's card details) gives a record, which is then the row's custom fields; otherwise a TypeError leaves the row without custom fields. An empty processor id is rejected with no row |
| StatusSubscriber.RefundRecategorisesCreditCard | src/EventSubscriber/PaymentStatusSubscriber.php:163 | as written, a refund of a credit-card payment logs the category DebitCard |
| StatusSubscriber.RefundKeepsCategory | src/EventSubscriber/PaymentStatusSubscriber.php:163 | corrected: the refund keeps the category the earlier row recorded |
| StatusSubscriber.RefundAmountIgnoresZeroDecimal | src/EventSubscriber/PaymentStatusSubscriber.php:144 | as written, a 1500 JPY order was charged 1500 but is refunded 150000 |
| StatusSubscriber.RefundMatchesCharge | src/EventSubscriber/PaymentStatusSubscriber.php:144 | corrected: in exact arithmetic, the refund of a charged minor-unit amount is that amount in every currency; as written it agrees only for currencies with decimals |
| CreditCardGateway.OrderIdOf | src/Gateways/CreditCard.php:304-315 | the order id iff the transaction and its order exist, a RuntimeException otherwise |
| CreditCardGateway.PayStatus | src/Gateways/CreditCard.php:108-117 | paid iff the mode compares loosely equal to AUTHORIZE_AND_CAPTURE, authorized otherwise |
| CreditCardGateway.PayStatusAgreesWithCharge | src/Gateways/CreditCard.php:108-117 | the gateway's loose mode test and the charge's strict autocomplete test agree on every mode except `true` |
| CreditCardGateway.StoreSubscriptionCard | src/Gateways/CreditCard.php:84-106 | the transaction's `recurringPayment` is set to the card record; other custom fields and transactions are kept |
| CreditCardGateway.CardPaymentData | src/Gateways/CreditCard.php:127-128 | the posted array when it is one; otherwise its decoding when that is an array, an empty array for a falsy decoding, and a TypeError (none) for a truthy decoding that is not an array |
| CreditCardGateway.Pay | src/Gateways/CreditCard.php:56-131 | a non-success or id-less payment fails the transaction with no row. A missing order throws before any change. Otherwise the subscription card is merged and the transaction moves to paid or authorized by mode; an array subscription card is then a TypeError with no row, and otherwise the ledger write is PaymentBooked's |
| CreditCardGateway.BookPayment | src/Gateways/CreditCard.php:119-129 | an unstorable transaction id throws with no row. Otherwise one row for the order with the payment's status is appended and its id returned; the log succeeds iff the card payment data gives a record, which becomes the row's custom fields; otherwise a TypeError leaves the row without custom fields |
| CreditCardGateway.Supports | src/Gateways/CreditCard.php:133-142 | true exactly for the recurring handler type |
| CreditCardGateway.FinalizeStatus | src/Gateways/CreditCard.php:256-284 | authorized iff the mode compares loosely equal to STORE, paid otherwise |
| CreditCardGateway.PayAndFinalizeModes | src/Gateways/CreditCard.php:108-117 | capture mode pays in both; any other mode but STORE authorizes in pay but pays in finalize |
| CreditCardGateway.Finalize | src/Gateways/CreditCard.php:247-292 | a non-success or id-less request fails the transaction with no row; a missing order throws with no change. Otherwise it moves to authorized (STORE) or paid. An unstorable id then throws with no row; otherwise one row with the matching status is appended and its id returned iff the posted (or decoded) payment data gives a 'success' record, which becomes the row's custom fields, and otherwise a TypeError leaves the row without custom fields |
| CreditCardGateway.ChosenCard | src/Gateways/CreditCard.php:167-182 | a card is chosen iff the order has a non-empty customer and a valid UUID subscription id and the stored choice for them names a non-empty card; the chosen card is that stored card |
| CreditCardGateway.ChosenCardWins | src/Gateways/CreditCard.php:183-200 | after the merge the card reference is the chosen card, and the Square customer reference is unchanged |
| CreditCardGateway.PayStoresWhatRecurringReads | src/Gateways/CreditCard.php:202-207 | the card record pay stores gives recurring the card id and customer id of the posted card |
| CreditCardGateway.RecurringAmountIsMinorUnit | src/Gateways/CreditCard.php:222-227 | the recurring amount is the minor-unit conversion of the order total and stands for it within half a unit |
| CreditCardGateway.Plan | src/Gateways/CreditCard.php:150-227 | a missing transaction or order interrupts first. After the choice is applied, a missing card reference, then a missing customer reference, then a missing currency interrupts with its own reason. Otherwise the plan carries that card reference, that customer reference, the order's currency and id and the converted total; the card is the chosen one when there is one |
| CreditCardGateway.ApplyChoice | src/Gateways/CreditCard.php:167-200 | a chosen card is written over the order transaction's card reference; every other transaction is kept |
| CreditCardGateway.AfterChoice | src/Gateways/CreditCard.php:167-200 | only the order transaction itself can change, and no transaction appears or disappears |
| CreditCardGateway.ChargePlan | src/Gateways/CreditCard.php:229-244 | the charge carries the plan, the key and the configured location. The answer is processRecurringPayment's as recurring ends it; a thrown charge interrupts with the exception's message, a returned failure with 'Payment failed'. The ledger is RecurringRows'. The transaction is paid when the answer stands, in the mode's state when the bookkeeping ran but the answer failed, unchanged otherwise |
| CreditCardGateway.PlanOutcomes | src/Gateways/CreditCard.php:229-244 | each interruption of a plan's charge with its reason: empty order id, a non-string location id, a thrown charge (its message), a failed one ('Payment failed'), a refused transition, a missing payment id, an unbuildable record; and the success, which happens only when the bookkeeping ran |
| CreditCardGateway.EndRecurring | src/Gateways/CreditCard.php:239-244 | a thrown answer escapes, a non-success answer interrupts with its message ('unknown error' without one), and the transaction is paid exactly when the answer stands |
| CreditCardGateway.Recurring | src/Gateways/CreditCard.php:144-245 | every interruption of the plan happens before any charge and after the choice merge, with no ledger row. Otherwise the outcome is ChargePlan's on the merged transactions, with the configured payment mode |
| ApplePayGateway.Pay | src/Gateways/ApplePay.php:56-96 | unconfigured sales channel or missing/empty/non-string id: fail and throw, no row. A missing order throws with no change. Otherwise the transaction is paid and exactly one paid row with the id and the context's method name is appended |
| ApplePayGateway.SupportsAsWrittenClaimsCreditCard | src/Gateways/ApplePay.php:98-112 | as written, the gateway supports the credit card method and not its own Apple Pay method |
| ApplePayGateway.SupportsOwnMethodOnly | src/Gateways/ApplePay.php:98-112 | corrected: supported exactly by the first Apple Pay method's id, and by no method of another handler |
| GooglePayGateway.Pay | src/Gateways/GooglePay.php:50-78 | a missing order throws before any change. Otherwise the transaction is paid unconditionally; the posted id is not checked; one paid row is appended when the ledger takes the id |
| GooglePayGateway.SupportsOwnMethodOnly | src/Gateways/GooglePay.php:80-95 | supported exactly by the first Google Pay method's id, and by no method of another handler |
| Host.HandlerMethodId | src/Gateways/GooglePay.php:88-95 | the id of the first payment method with the handler, none iff the handler has no method |
| Host.ContextMethodName | src/Gateways/ApplePay.php:75-80 | '' without the extension; the extension's string entry otherwise |
| Host.MovedTwice | src/Gateways/CreditCard.php:229-244 | a second move of the same transaction overrides the first |
| CardService.AddressCopiesKeys | src/Service/SquareCardService.php:287-299 | getAddress throws iff the billing value is not an array or one of its eight address entries is an array; otherwise the eight address keys are copied from the billing array, null for each missing key |
| CardService.GetSquareCustomerId | src/Service/SquareCardService.php:243-255 | the cached Square id iff the customer's custom field is truthy |
| CardService.BuildCustomerRequest | src/Service/SquareCardService.php:202-214 | no billing address gives the empty request. A billing address gives a TypeError iff getAddress refuses it or its given name, family name, email or phone is an array; otherwise the request carries getAddress's address and those four entries |
| CardService.GetOrCreateSquareCustomerId | src/Service/SquareCardService.php:190-240 | a cached id is returned with no processor call. Otherwise a request the billing address makes fail (a non-array address, or an array entry for a setter) throws its TypeError with no call and no write. A created id is merged into the customer's custom fields, keeping the other keys. No created id gives null and no write |
| Php.TrimLeftDropsLeadingRun | src/Service/SquareCardService.php:154 | trim's left half leaves the suffix of the text after its leading run of blanks, tabs, newlines, returns, NULs and vertical tabs, and that suffix does not start with one |
| Php.TrimRightDropsTrailingRun | src/Service/SquareCardService.php:154 | trim's right half leaves the prefix of the text before its trailing run of those characters, and that prefix does not end with one |
| CardService.CardSource | src/Service/SquareCardService.php:136 | the payment id when set, else the card token |
| CardService.CardholderName | src/Service/SquareCardService.php:150-157 | the posted cardholder name when set; else, with a billing address, the trimmed `first last` (a missing part reads as ''); else none |
| CardService.AddCard | src/Service/SquareCardService.php:126-176 | no customer, then no source, is an error before any call. Otherwise the customers are those the Square id lookup leaves; its TypeError escapes, no id gives the 'Could not create' error, an array cardholder name, a billing address getAddress refuses (sent with a card token) or an array source is a TypeError, and otherwise the request is sent with the obtained Square customer id, the key, the source and the name. The billing address is attached iff both it and a card token are present. The answer follows the processor |
| CardService.GetSavedCards | src/Service/SquareCardService.php:37-85 | always exactly a `cards` key; empty without a customer or a Square id, the listed cards otherwise |
| CardService.GetSavedCard | src/Service/SquareCardService.php:88-123 | always exactly a `card` key; null without a customer or a Square id, the fetched card otherwise |
| CardChoice.ChoiceRepository.Find | src/Storefront/Controller/SquareSubscriptionCardChoiceController.php:50-57 | the first row of the customer and subscription; none iff there is none |
| CardChoice.ChoiceRepository.Upsert | src/Storefront/Controller/SquareSubscriptionCardChoiceController.php:66 | a row with the same id is overwritten in place, a new id is appended |
| CardChoice.StoreChoice | src/Storefront/Controller/SquareSubscriptionCardChoiceController.php:50-66 | the pair's existing row keeps its id and takes the card, otherwise a row with the fresh id is appended; both keys stay unique and the search then finds the card |
| CardChoice.RequestString | src/Storefront/Controller/SquareSubscriptionCardChoiceController.php:39-40 | a string passes, null reads as ''; an array input is an error |
| CardChoice.Save | src/Storefront/Controller/SquareSubscriptionCardChoiceController.php:32-69 | no customer: 401 and no write. Invalid subscription id: 400, checked before the card. Empty card: 400. Otherwise the pair's existing row is overwritten keeping its id, or a fresh row is added. The table stays unique per pair and stores the card |
| SubscriptionId.FromCustomFields | src/Storefront/Service/SquareSubscriptionIdExtractor.php:27-31 | `s25SubscriptionId`, else `s25_subscription_id`, when a string |
| SubscriptionId.Extract | src/Storefront/Service/SquareSubscriptionIdExtractor.php:9-34 | the dedicated getter decides alone. Then a string `get`, then a string array offset, then the custom-field probe. With none of these the result is null |
| SubscriptionId.ExtractIsProbed | src/Storefront/Service/SquareSubscriptionIdExtractor.php:9-34 | any id found is the string one of the probes returned |
| SubscriptionId.GetterDecidesAlone | src/Storefront/Service/SquareSubscriptionIdExtractor.php:11-14 | a getter returning a non-string gives null with no further probing |
| SubscriptionRows.Candidate | src/Storefront/Service/SquareSubscriptionOrderProvider.php:56-89 | an order is kept under its subscription id iff it is recurring, a Square order and has a valid UUID subscription id |
| SubscriptionRows.KeptIsFirst | src/Storefront/Service/SquareSubscriptionOrderProvider.php:54-94 | each subscription is kept with its first qualifying order, which is the latest by the date sort |
| SubscriptionRows.KeptDistinct | src/Storefront/Service/SquareSubscriptionOrderProvider.php:91-93 | each subscription id is kept once |
| SubscriptionRows.KeptHasEvery | src/Storefront/Service/SquareSubscriptionOrderProvider.php:54-94 | every qualifying order's subscription is kept |
| SubscriptionRows.ChoiceMapIsStoredChoice | src/Storefront/Service/SquareSubscriptionOrderProvider.php:100-111 | a kept subscription has a choice iff the customer stored one for it, and it is that stored card |
| SubscriptionRows.LatestBySubscription | src/Storefront/Service/SquareSubscriptionOrderProvider.php:54-94 | the first loop computes the kept subscriptions |
| SubscriptionRows.ChoiceBySubscription | src/Storefront/Service/SquareSubscriptionOrderProvider.php:104-111 | the second loop computes the choice map |
| SubscriptionRows.BuildRows | src/Storefront/Service/SquareSubscriptionOrderProvider.php:113-142 | one row per kept subscription, built from its order |
| SubscriptionRows.GetSubscriptionRows | src/Storefront/Service/SquareSubscriptionOrderProvider.php:38-143 | no customer gives []. Otherwise there is exactly one row per kept subscription, with distinct ids. The chosen card is the stored choice, else the transaction's non-empty card reference |
| ProviderLabels.Label | src/EventSubscriber/S25SubscriptionPaymentMethodProviderSubscriber.php:76-90 | the trimmed joined parts when they are not empty, the card's id as text otherwise; a card with a truthy id gets a non-empty label |
| ProviderLabels.ExpiryNeedsBoth | src/EventSubscriber/S25SubscriptionPaymentMethodProviderSubscriber.php:76-86 | the `(month/year)` part closes the label exactly when both month and year are truthy; otherwise every part is the brand or the masked last four |
| ProviderLabels.FullLabel | src/EventSubscriber/S25SubscriptionPaymentMethodProviderSubscriber.php:71-90 | a card with brand, last four and expiry gets `brand •••• last4 (month/year)` |
| ProviderLabels.Entry | src/EventSubscriber/S25SubscriptionPaymentMethodProviderSubscriber.php:91-94 | a listed card's entry has a non-empty id and label |
| ProviderLabels.SavedEntriesAreListedCards | src/EventSubscriber/S25SubscriptionPaymentMethodProviderSubscriber.php:60-96 | the saved list holds exactly the entries of the array cards with a truthy id |
| ProviderLabels.WithSquareProvider | src/EventSubscriber/S25SubscriptionPaymentMethodProviderSubscriber.php:107-115 | the credit card handler gets the Square payload only when it has no provider; every other provider is kept |
| ProviderLabels.RegistrationIsIdempotent | src/EventSubscriber/S25SubscriptionPaymentMethodProviderSubscriber.php:107-117 | registering again never overwrites the first registration |
| ProviderLabels.OnPageLoaded | src/EventSubscriber/S25SubscriptionPaymentMethodProviderSubscriber.php:27-118 | other pages are left unchanged. A card lookup failure leaves only the extension added. Otherwise the extension's providers gain the Square provider with the saved cards |
| Config.ConfigKey | src/Service/SquareConfigService.php:13-16 | the key is the plugin prefix followed by the trimmed name |
| Config.ConfigSet | src/Service/SquareConfigService.php:18-21 | the prefixed key is written with the second argument as its value, and reads back as that value |
| Config.MissingModeIsSandbox | src/Service/SquareConfigService.php:25-26 | a missing mode selects sandbox |
| Config.ConfiguredReadsSelectedOnly | src/Service/SquareConfigService.php:23-44 | two configurations that agree on the mode and on the selected environment's access token, application id and location id agree on whether the shop is configured, whatever the other environment's credentials are |
| Config.ModeReadingsAgree | src/Service/SquareApiFactory.php:17-21 | the factory's strict sandbox test agrees with the configuration service's string test |
| Config.Create | src/Service/SquareApiFactory.php:17-32 | sandbox mode gives the sandbox token and environment, any other mode the production ones |
| Config.CreateClientByEnv | src/Service/SquareApiFactory.php:33-45 | the environment passes through; the sandbox token is used iff it is the sandbox environment |
| Config.CreateByModeEnvironment | src/Service/SquareApiFactory.php:17-45 | the client built for the configured environment is the client `create` builds |
| Config.SelectedId | src/Service/SquareApiFactory.php:47-65 | the location or application id of the selected environment; a non-string is a TypeError |
| Config.ConfiguredLocation | src/Service/SquareApiFactory.php:47-55 | a configured shop has a non-empty location id |
| Config.TestEnvironment | src/Service/SquareApiTestService.php:30-36 | production iff the payload says 'production'; sandbox otherwise, also when missing |
| Config.TestConfigValue | src/Service/SquareApiTestService.php:86-96 | a value exists iff the stored value is a scalar |
| Config.CheckLocation | src/Service/SquareApiTestService.php:27-84 | an array sales channel fails with its TypeError and no request. A missing access token or location id fails naming the environment with no request. With both, the request carries them and the environment, and the answer is Answered's |
| Config.Answered | src/Service/SquareApiTestService.php:50-83 | success iff the location is found, with the location. Otherwise the first error's detail, 'Unknown error' without one, or the exception's message |
| Config.MissingCredentialFails | src/Service/SquareApiTestService.php:43-48 | a missing access token or a missing location id fails with the environment's name, with no request, whatever the processor would answer |
| Endpoints.GetEndpoint | src/Library/Endpoints.php:17-51 | exactly the seven known keys resolve; LOCATIONS is GET and all others POST |
| Endpoints.GetUrl | src/Library/Endpoints.php:53-61 | the table's method; base url plus '/' and id for a truthy id, the base url otherwise |
| Endpoints.SegmentsAppend | src/Library/Endpoints.php:66-70 | the path segments of joined parameter lists are the joined segments |
| Endpoints.GetUrlDynamicParam | src/Library/Endpoints.php:63-82 | the table's method, the base url, one '/'-prefixed segment per parameter in order, and a '?' query only for non-empty query parameters |
| Endpoints.DynamicAgreesWithGetUrl | src/Library/Endpoints.php:53-82 | with no parameter, or one truthy id, the dynamic url equals the plain one |

## Left out

- Square SDK calls, the customer, subscription and refund wrappers, and the webhook-subscription create/retrieve calls are not modelled. Their answers are inputs: `ProcessorCall`, `CustomerCreated`, `CardCall`, `CardListing`, `LocationCall`.
- Storefront and administration JavaScript, the forwarding controllers, the plugin lifecycle, migrations and entity definitions are not modelled. Their shapes are folded into datatypes.
- Randomness is an input: the 16 idempotency-key bytes, the logger's random payment id and fresh card-choice ids.
- Clocks are not modelled: creation times are integers, and an order date's display format is not modelled.
- JSON encoding and decoding are inputs: a decoded value is passed in.
- `Uuid::isValid` is modelled as 32 lower-case hex digits.
- Floating point is not modelled: amounts are exact reals; `round` is half away from zero, `(int)` truncates.
- Loggers and log output are not modelled.
- Concurrency between webhook delivery and the listener is not modelled.
- The host state handler's own refusals inside the gateways are not modelled: `paid`, `authorize` and `fail` always apply. The webhook, `Settle` and recurring take the host's answer as an input.
- The webhook's order transaction is the first of the order that exists.
- `TransactionLedger.Ledger.TransactionByOrderId`: the repository's unsorted `->first()` is modelled as the earliest appended row of the order. The database may return any matching row, and the listener appends rows of its own after a capture, so which row a later refund reads is not determined by the source.
- `TransactionLedger.Ledger.TransactionByProcessorId`: the webhook's unsorted `->first()` is modelled as the earliest appended row carrying the processor id; the database may return any of them.
- `StatusSubscriber.SquareRowOf`: takes the order's row through `TransactionByOrderId`, so it is the earliest appended row, where the source leaves the choice to the database.
- `Config.CheckLocation`: a caught TypeError (an array sales-channel id) is answered with the word "TypeError", not PHP's message text; everywhere else, too, a TypeError is recorded by that word only.
- `SubscriptionId.Extract`: the order's accessors are assumed to answer. The host's `get` throws for an unknown property, and a throwing `get('s25SubscriptionId')` is not modelled, so the model can reach the custom-field probe where such an order would throw first.
- The RequestDataBag's wrapping of nested arrays in bag objects is not modelled; posted values are read as plain values.
- PaymentException and StateMachineException: only the reason text or error code is modelled, not the wrapping message.
- The sixth argument the credit card gateway passes to `addTransaction` is ignored, as PHP does.
- PHP loose comparison with `"1"` is modelled for the values the plugin meets (true, 1, 1.0, '1'). Other numeric strings such as '01' are not recognised.
- Integer keys of a PHP list are dropped when it is read as a string-keyed array.
- `ProviderLabels.CardsOf`: a keyed `cards` value is treated as an empty list.
- `CreditCardGateway.Recurring`: the failure message when the response has no `message` is 'unknown error'. The plan is stated over the order's exact total.
- `ApplePayGateway.SupportsAsWrittenClaimsCreditCard` and the two `SupportsOwnMethodOnly` lemmas assume unique payment-method ids, as the repository's primary key guarantees.
- `PaymentRules.FloatOf`: a numeric string with an exponent ("1e2") is read only up to the exponent, so `(float)"1e2"` gives 1.0 instead of 100.0; `Php.StrToFloat` reads sign, digits and a decimal fraction only.
- `PaymentRules.ChargeAmount`: an amount string with an exponent is read only up to the exponent, so `(int)"1e3"` gives 1 where PHP gives 1000; `Php.StrToInt` reads sign and digits only.
- `Endpoints.GetUrlDynamicParam`: the query string is `key=value` pairs joined by '&' without http_build_query's URL encoding, and its query parameters are strings, so http_build_query's skipping of null values and its expansion of nested arrays are not modelled.
- `StatusSubscriber.RefundMatchesCharge`: holds in exact arithmetic only. With PHP floats `(int)($amount * 100)` truncates the binary product, so a 19.99 total refunds 1998 while the charge rounds to 1999.
- `PaymentService.ChargeRecord`: a processor payment given as a JSON string is not decoded; it reads as an empty record, which cannot be built (the TypeError path).

## Findings

| source | as written | input that shows it | evidently intended | confidence | as-written member | corrected member |
|---|---|---|---|---|---|---|
| src/EventSubscriber/PaymentStatusSubscriber.php:144 | the refund amount is `(int)(total * 100)` for every currency | a 1500 JPY order: charged 1500, refunded 150000 | the same minor-unit conversion as the charge | not executed; high | StatusSubscriber.RefundAmountIgnoresZeroDecimal | StatusSubscriber.RefundMatchesCharge |
| src/EventSubscriber/PaymentStatusSubscriber.php:163 | the earlier row's card category is fed back as `source_type`, and the logger re-categorises it | a refund of a payment recorded as CreditCard is logged as DebitCard ("CreditCard" has an upper-case C) | the refund keeps the recorded category | not executed; high | StatusSubscriber.RefundRecategorisesCreditCard | StatusSubscriber.RefundKeepsCategory |
| src/Gateways/ApplePay.php:108 | supports looks up the credit card handler's payment method | methods [credit card "cc", Apple Pay "ap"]: supports("cc") is true, supports("ap") false | look up the Apple Pay handler's own method, as the Google Pay gateway does | not executed; medium | ApplePayGateway.SupportsAsWrittenClaimsCreditCard | ApplePayGateway.SupportsOwnMethodOnly |

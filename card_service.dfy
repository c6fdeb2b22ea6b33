/** SquareCardService: the Square customer id cached in the shop customer's custom
    fields, the add-card request built from the storefront payload, and the saved-card
    listings. Processor results are inputs. */
module CardService {
  import opened Php
  import opened Host
  import opened IdempotencyKey

  /** The customer custom field caching the Square customer id. */
  const SquareIdField: string := "squarepayments_square_customer_id"

  /** A Square address: the eight fields getAddress copies. */
  datatype Address = Address(
    firstName: Value, lastName: Value,
    line1: Value, line2: Value, line3: Value,
    country: Value, locality: Value, postalCode: Value)

  const AddressKeys: set<string> :=
    {"firstName", "lastName", "addressLine1", "addressLine2", "addressLine3", "country", "locality", "postalCode"}

  /** The address as the payload keys it was read from. */
  function AddressFields(a: Address): (m: Fields)
    ensures m.Keys == AddressKeys
  {
    map["firstName" := a.firstName, "lastName" := a.lastName,
        "addressLine1" := a.line1, "addressLine2" := a.line2, "addressLine3" := a.line3,
        "country" := a.country, "locality" := a.locality, "postalCode" := a.postalCode]
  }

  /** The SDK setters take `?string`: a scalar is coerced, an array is a TypeError. */
  predicate SetterRefuses(v: Value) {
    IsArray(v)
  }

  /** Some entry getAddress hands to a setter is an array. */
  predicate AddressRefused(billing: Value) {
    || SetterRefuses(Get(billing, "firstName")) || SetterRefuses(Get(billing, "lastName"))
    || SetterRefuses(Get(billing, "addressLine1")) || SetterRefuses(Get(billing, "addressLine2"))
    || SetterRefuses(Get(billing, "addressLine3")) || SetterRefuses(Get(billing, "country"))
    || SetterRefuses(Get(billing, "locality")) || SetterRefuses(Get(billing, "postalCode"))
  }

  /** getAddress: its parameter is typed `array`, and each of its eight setters refuses
      an array; either is a TypeError (Thrown). */
  function GetAddress(billing: Value): Outcome<Address> {
    if !IsArray(billing) || AddressRefused(billing) then Thrown("TypeError")
    else Ok(Address(Get(billing, "firstName"), Get(billing, "lastName"),
      Get(billing, "addressLine1"), Get(billing, "addressLine2"), Get(billing, "addressLine3"),
      Get(billing, "country"), Get(billing, "locality"), Get(billing, "postalCode")))
  }

  /** getAddress accepts exactly the billing arrays none of whose eight address
      entries is an array; each of the eight address fields is then the billing entry
      under its key, null when that key is missing, and no other key is read. */
  lemma AddressCopiesKeys(billing: Value)
    ensures GetAddress(billing).Thrown? <==>
      !IsArray(billing) || exists k :: k in AddressKeys && SetterRefuses(Get(billing, k))
    ensures GetAddress(billing).Ok? ==>
      forall k :: k in AddressKeys ==> AddressFields(GetAddress(billing).value)[k] == Get(billing, k)
    ensures GetAddress(billing).Ok? ==>
      forall k :: k in AddressKeys && !(billing.Arr? && k in billing.fields) ==>
        AddressFields(GetAddress(billing).value)[k] == Null
  {
    if AddressRefused(billing) {
      var k :| k in AddressKeys && SetterRefuses(Get(billing, k));
    }
    if GetAddress(billing).Ok? {
      var m := AddressFields(GetAddress(billing).value);
      forall k | k in AddressKeys
        ensures m[k] == Get(billing, k)
      {
        if k == "firstName" || k == "lastName" || k == "addressLine1" || k == "addressLine2" {
        } else {
          assert k == "addressLine3" || k == "country" || k == "locality" || k == "postalCode";
        }
      }
    }
  }

  /** The shop customer's custom fields: `[]` when the customer is missing or has none. */
  function CustomerFieldsIn(customers: map<string, Customer>, customerId: string): Fields {
    if customerId in customers then AsFields(customers[customerId].customFields) else map[]
  }

  function CustomerFields(store: Store, customerId: string): Fields
    reads store
  {
    CustomerFieldsIn(store.customers, customerId)
  }

  /** The cached Square id of a customer: present when truthy, cast to string. */
  function CachedId(customers: map<string, Customer>, customerId: string): Option<string> {
    var cached := Field(CustomerFieldsIn(customers, customerId), SquareIdField);
    if Truthy(cached) then Some(ToStr(cached)) else None
  }

  /** getSquareCustomerId: the cached id when truthy, cast to string. */
  function GetSquareCustomerId(store: Store, customerId: string): (r: Option<string>)
    reads store
    ensures r.Some? <==> Truthy(Field(CustomerFields(store, customerId), SquareIdField))
    ensures r.Some? ==> r.value == ToStr(CustomerFields(store, customerId)[SquareIdField])
  {
    CachedId(store.customers, customerId)
  }

  /** The CreateCustomerRequest: empty, or filled from the billing address. */
  datatype CustomerRequest =
    | EmptyCustomer
    | FromBilling(address: Address, givenName: Value, familyName: Value, email: Value, phone: Value)

  /** Some contact entry createCustomer's request setters are given is an array. */
  predicate ContactRefused(billing: Value) {
    || SetterRefuses(Get(billing, "givenName")) || SetterRefuses(Get(billing, "familyName"))
    || SetterRefuses(Get(billing, "email")) || SetterRefuses(Get(billing, "phone"))
  }

  /** The request built from the payload; getAddress's TypeError, or that of a setter
      given an array, escapes (Thrown). */
  function BuildCustomerRequest(payload: Fields): (r: Outcome<CustomerRequest>)
    ensures Field(payload, "billingAddress") == Null ==> r == Ok(EmptyCustomer)
    ensures r.Ok? && r.value.FromBilling? ==>
      GetAddress(payload["billingAddress"]).Ok? && r.value.address == GetAddress(payload["billingAddress"]).value
      && r.value.givenName == Get(payload["billingAddress"], "givenName")
      && r.value.familyName == Get(payload["billingAddress"], "familyName")
      && r.value.email == Get(payload["billingAddress"], "email")
      && r.value.phone == Get(payload["billingAddress"], "phone")
    ensures r.Thrown? <==>
      && Field(payload, "billingAddress") != Null
      && (GetAddress(payload["billingAddress"]).Thrown? || ContactRefused(payload["billingAddress"]))
    ensures r.Thrown? ==> r.error == "TypeError"
  {
    var billing := Field(payload, "billingAddress");
    if billing == Null then Ok(EmptyCustomer)
    else if GetAddress(billing).Thrown? || ContactRefused(billing) then Thrown("TypeError")
    else Ok(FromBilling(GetAddress(billing).value, Get(billing, "givenName"), Get(billing, "familyName"),
      Get(billing, "email"), Get(billing, "phone")))
  }

  /** What createCustomer returned: an SDK object (whose `getCustomer()` is None when
      it gives nothing, else the customer's id, which may be null), a PHP array, or
      anything else (the wrapper returns the exception message on failure). */
  datatype CustomerCreated =
    | CreatedObject(customer: Option<Option<string>>)
    | CreatedArray(fields: Fields)
    | CreatedOther

  /** The new customer id read from the result; Null when there is none. */
  function CreatedId(c: CustomerCreated): Value {
    match c
    case CreatedObject(customer) =>
      if customer.Some? && customer.value.Some? then Str(customer.value.value) else Null
    case CreatedArray(f) => Get(Field(f, "customer"), "id")
    case CreatedOther => Null
  }

  /** The id getOrCreateSquareCustomerId returns: the cached one, else the TypeError of
      building the request, else the created id when truthy, else null. */
  function ObtainedSquareId(customers: map<string, Customer>, customerId: string, payload: Fields,
                            created: CustomerCreated): Outcome<Option<string>>
  {
    var cached := CachedId(customers, customerId);
    if cached.Some? then Ok(cached)
    else if BuildCustomerRequest(payload).Thrown? then Thrown(BuildCustomerRequest(payload).error)
    else if !Truthy(CreatedId(created)) then Ok(None)
    else Ok(Some(ToStr(CreatedId(created))))
  }

  /** The shop customers once getOrCreateSquareCustomerId has run: only a newly created
      id is written, merged into that customer's custom fields. */
  function CustomersAfterObtain(customers: map<string, Customer>, customerId: string, payload: Fields,
                                created: CustomerCreated): map<string, Customer>
  {
    if CachedId(customers, customerId).None? && BuildCustomerRequest(payload).Ok?
       && Truthy(CreatedId(created)) && customerId in customers
    then customers[customerId := customers[customerId].(customFields :=
      Arr(CustomerFieldsIn(customers, customerId)[SquareIdField := CreatedId(created)]))]
    else customers
  }

  /** getOrCreateSquareCustomerId. `request` is the create request sent to the
      processor (None: no processor call); `created` is what that call returned. */
  method GetOrCreateSquareCustomerId(store: Store, customerId: string, payload: Fields, created: CustomerCreated)
    returns (r: Outcome<Option<string>>, request: Option<CustomerRequest>)
    modifies store
    ensures store.orders == old(store.orders) && store.txs == old(store.txs)
    ensures r == ObtainedSquareId(old(store.customers), customerId, payload, created)
    ensures store.customers == CustomersAfterObtain(old(store.customers), customerId, payload, created)
    ensures old(GetSquareCustomerId(store, customerId)).Some? ==>
      r == Ok(old(GetSquareCustomerId(store, customerId))) && request.None? && store.customers == old(store.customers)
    ensures old(GetSquareCustomerId(store, customerId)).None? && BuildCustomerRequest(payload).Thrown? ==>
      r.Thrown? && request.None? && store.customers == old(store.customers)
    ensures old(GetSquareCustomerId(store, customerId)).None? && BuildCustomerRequest(payload).Ok? ==>
      request == Some(BuildCustomerRequest(payload).value)
    ensures request.Some? && !Truthy(CreatedId(created)) ==>
      r == Ok(None) && store.customers == old(store.customers)
    ensures request.Some? && Truthy(CreatedId(created)) ==>
      r == Ok(Some(ToStr(CreatedId(created))))
      && store.customers == (if customerId in old(store.customers)
        then old(store.customers)[customerId := old(store.customers)[customerId].(customFields :=
          Arr(old(CustomerFields(store, customerId))[SquareIdField := CreatedId(created)]))]
        else old(store.customers))
  {
    var cached := GetSquareCustomerId(store, customerId);
    if cached.Some? {
      return Ok(cached), None;
    }
    var built := BuildCustomerRequest(payload);
    if built.Thrown? {
      return Thrown(built.error), None;
    }
    request := Some(built.value);
    var id := CreatedId(created);
    if !Truthy(id) {
      return Ok(None), request;
    }
    var fields := CustomerFields(store, customerId);
    store.SetCustomerFields(customerId, fields[SquareIdField := id]);
    r := Ok(Some(ToStr(id)));
  }

  /** Once get-or-create has returned an id for an existing customer, the cached
      lookup returns that same id, so the next call needs no processor call. */
  method CachedAfterCreate(store: Store, customerId: string, payload: Fields, created: CustomerCreated)
    returns (r: Outcome<Option<string>>)
    requires customerId in store.customers
    modifies store
    ensures r.Ok? && r.value.Some? ==> GetSquareCustomerId(store, customerId) == r.value
  {
    var request;
    r, request := GetOrCreateSquareCustomerId(store, customerId, payload, created);
    if r.Ok? && r.value.Some? && request.Some? {
      assert CustomerFields(store, customerId)[SquareIdField] == CreatedId(created);
    }
  }

  /** The card sent to createCard. `cardholderName` and `billing` are None when not
      set on the card. */
  datatype CardRequest = CardRequest(
    idempotencyKey: string,
    sourceId: Value,
    cardholderName: Option<Value>,
    customerId: string,
    billing: Option<Address>)

  /** What createCard gave: the serialized result, or an ApiException's message. */
  datatype CardCall = CardCreated(result: Fields) | CardRejected(message: string)

  /** `$payload['paymentId'] ?? $payload['cardToken'] ?? null` */
  function CardSource(payload: Fields): (v: Value)
    ensures Field(payload, "paymentId") != Null ==> v == payload["paymentId"]
    ensures Field(payload, "paymentId") == Null ==> v == Field(payload, "cardToken")
  {
    OrElse(Field(payload, "paymentId"), Field(payload, "cardToken"))
  }

  /** The cardholder name: the payload's own when set, else the trimmed billing
      "first last" (missing parts are ''), else none. */
  function CardholderName(payload: Fields): (r: Option<Value>)
    ensures Field(payload, "cardholderName") != Null ==> r == Some(payload["cardholderName"])
    ensures Field(payload, "cardholderName") == Null && Field(payload, "billingAddress") == Null ==> r.None?
    ensures Field(payload, "cardholderName") == Null && Field(payload, "billingAddress") != Null ==>
      var billing := payload["billingAddress"];
      var first := if Get(billing, "firstName") == Null then "" else ToStr(billing.fields["firstName"]);
      var last := if Get(billing, "lastName") == Null then "" else ToStr(billing.fields["lastName"]);
      r == Some(Str(Trim(first + " " + last)))
  {
    if Field(payload, "cardholderName") != Null then Some(payload["cardholderName"])
    else if Field(payload, "billingAddress") != Null then
      var billing := payload["billingAddress"];
      Some(Str(Trim(ToStr(OrElse(Get(billing, "firstName"), Str(""))) + " " + ToStr(OrElse(Get(billing, "lastName"), Str(""))))))
    else None
  }

  /** `['error' => $message]` */
  function Error(message: string): Fields {
    map["error" := Str(message)]
  }

  /** The TypeErrors of building the card once the customer is known: an array
      cardholder name refused by its setter, getAddress refusing the billing address
      sent beside a card token, and an array source refused by createCard's typed
      constructor. */
  predicate CardRequestRefused(payload: Fields) {
    || (Field(payload, "cardholderName") != Null && SetterRefuses(payload["cardholderName"]))
    || (Field(payload, "billingAddress") != Null && Field(payload, "cardToken") != Null
        && GetAddress(payload["billingAddress"]).Thrown?)
    || IsArray(CardSource(payload))
  }

  /** addCard. `customer` is the logged-in customer's id; `random` the 16 bytes of the
      idempotency key. `request` is the createCard request (None: not sent). */
  method AddCard(store: Store, customer: Option<string>, payload: Fields, random: seq<bv8>,
                 created: CustomerCreated, call: CardCall)
    returns (r: Outcome<Fields>, request: Option<CardRequest>)
    requires |random| == 16
    modifies store
    ensures store.orders == old(store.orders) && store.txs == old(store.txs)
    ensures customer.None? ==> r == Ok(Error("No customer")) && request.None? && store.customers == old(store.customers)
    ensures customer.Some? && !Truthy(CardSource(payload)) ==>
      r == Ok(Error("Missing card token")) && request.None? && store.customers == old(store.customers)
    ensures customer.Some? && Truthy(CardSource(payload)) ==>
      store.customers == CustomersAfterObtain(old(store.customers), customer.value, payload, created)
    ensures customer.Some? && Truthy(CardSource(payload)) ==>
      var obtained := ObtainedSquareId(old(store.customers), customer.value, payload, created);
      && (obtained.Thrown? ==> r == Thrown(obtained.error) && request.None?)
      && (obtained == Ok(None) ==> r == Ok(Error("Could not create Square customer")) && request.None?)
      && (obtained.Ok? && obtained.value.Some? && CardRequestRefused(payload) ==> r == Thrown("TypeError") && request.None?)
      && (obtained.Ok? && obtained.value.Some? && !CardRequestRefused(payload) ==>
            request.Some? && request.value.customerId == obtained.value.value)
    ensures request.Some? ==>
      && customer.Some? && Truthy(CardSource(payload)) && !CardRequestRefused(payload)
      && request.value.idempotencyKey == Key(random)
      && request.value.sourceId == CardSource(payload)
      && request.value.cardholderName == CardholderName(payload)
      && (request.value.billing.Some? <==> Field(payload, "billingAddress") != Null && Field(payload, "cardToken") != Null)
      && (request.value.billing.Some? ==>
           GetAddress(payload["billingAddress"]).Ok?
           && request.value.billing.value == GetAddress(payload["billingAddress"]).value)
      && r == (if call.CardCreated? then Ok(call.result) else Ok(Error(call.message)))
  {
    if customer.None? {
      return Ok(Error("No customer")), None;
    }
    var source := CardSource(payload);
    if !Truthy(source) {
      return Ok(Error("Missing card token")), None;
    }
    var squareId, customerRequest := GetOrCreateSquareCustomerId(store, customer.value, payload, created);
    if squareId.Thrown? {
      return Thrown(squareId.error), None;
    }
    if squareId.value.None? {
      return Ok(Error("Could not create Square customer")), None;
    }
    var key := NewKey(random);
    var cardholderName := CardholderName(payload);
    if cardholderName.Some? && SetterRefuses(cardholderName.value) {
      return Thrown("TypeError"), None;
    }
    var billing: Option<Address> := None;
    if Field(payload, "billingAddress") != Null && Field(payload, "cardToken") != Null {
      var address := GetAddress(payload["billingAddress"]);
      if address.Thrown? {
        return Thrown(address.error), None;
      }
      billing := Some(address.value);
    }
    if IsArray(source) {
      return Thrown("TypeError"), None;
    }
    request := Some(CardRequest(key, source, cardholderName, squareId.value.value, billing));
    match call
    case CardCreated(result) => r := Ok(result);
    case CardRejected(message) => r := Ok(Error(message));
  }

  /** What listCards gave: an array, an object with `getCards()` (its entries already
      serialized), an object serialized as a whole, anything else, or an ApiException. */
  datatype CardListing =
    | ListedArray(fields: Fields)
    | ListedCards(cards: seq<Value>)
    | ListedSerialized(data: Fields)
    | ListedOther
    | ListingFailed

  function ListedCardsOf(listing: CardListing): Value {
    match listing
    case ListedArray(f) => OrElse(Field(f, "cards"), List([]))
    case ListedCards(cards) => List(cards)
    case ListedSerialized(data) => OrElse(Field(data, "cards"), List([]))
    case ListedOther => List([])
    case ListingFailed => List([])
  }

  /** getSavedCards: always exactly a `cards` key; without a customer or a cached
      Square id it is the empty list whatever the processor would have listed. */
  function GetSavedCards(store: Store, customer: Option<string>, listing: CardListing): (r: Fields)
    reads store
    ensures r.Keys == {"cards"}
    ensures customer.None? || GetSquareCustomerId(store, customer.value).None? ==> r["cards"] == List([])
    ensures customer.Some? && GetSquareCustomerId(store, customer.value).Some? && listing.ListedCards? ==>
      r["cards"] == List(listing.cards)
  {
    if customer.None? || GetSquareCustomerId(store, customer.value).None? then map["cards" := List([])]
    else map["cards" := ListedCardsOf(listing)]
  }

  /** What retrieveCard gave: an object with `getCard()` (the card serialized), an
      object serialized as a whole, anything else, or an exception. */
  datatype CardFetch = FetchedCard(card: Value) | FetchedSerialized(data: Fields) | FetchedOther | FetchFailed

  /** getSavedCard: always exactly a `card` key, null without a customer or Square id. */
  function GetSavedCard(store: Store, customer: Option<string>, fetch: CardFetch): (r: Fields)
    reads store
    ensures r.Keys == {"card"}
    ensures customer.None? || GetSquareCustomerId(store, customer.value).None? ==> r["card"] == Null
    ensures customer.Some? && GetSquareCustomerId(store, customer.value).Some? && fetch.FetchedCard? ==>
      r["card"] == fetch.card
  {
    if customer.None? || GetSquareCustomerId(store, customer.value).None? then map["card" := Null]
    else
      match fetch
      case FetchedCard(card) => map["card" := card]
      case FetchedSerialized(data) => map["card" := Field(data, "card")]
      case FetchedOther => map["card" := Null]
      case FetchFailed => map["card" := Null]
  }
}

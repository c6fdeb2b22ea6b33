/** S25SubscriptionPaymentMethodProviderSubscriber: on the subscriptions account page,
    registers Square as the saved-payment-method provider of the credit card handler,
    listing the customer's saved cards with a readable label. */
module ProviderLabels {
  import opened Php
  import opened Library

  const ExtensionName: string := "s25SubscriptionPaymentMethodChange"
  const SubscriptionsUri: string := "/account/s25-subscriptions"
  const Bullets: string := "\U{2022}\U{2022}\U{2022}\U{2022} "

  /** A page extension: an ArrayEntity with its data, or some other struct. */
  datatype Extension = ArrayEntity(data: Fields) | OtherStruct

  /** The storefront page's extensions, which the subscriber changes in place. */
  class Page {
    var extensions: map<string, Extension>

    constructor (extensions: map<string, Extension>)
      ensures this.extensions == extensions
    {
      this.extensions := extensions;
    }
  }

  /** The label of a saved card: brand, masked last four digits and `(month/year)`,
      each only when truthy (the expiry only when both parts are), joined by spaces
      and trimmed; the card id when that leaves nothing. */
  function Label(card: Value): (r: string)
    ensures Truthy(Get(card, "id")) ==> r != ""
    ensures Trim(JoinSpace(LabelParts(card))) != "" ==> r == Trim(JoinSpace(LabelParts(card)))
    ensures Trim(JoinSpace(LabelParts(card))) == "" ==> r == ToStr(Get(card, "id"))
  {
    var text := Trim(JoinSpace(LabelParts(card)));
    if text == "" then ToStr(Get(card, "id")) else text
  }

  function LabelParts(card: Value): seq<string> {
    var last4 := Get(card, "last4");
    var brand := OrElse(Get(card, "cardBrand"), Get(card, "brand"));
    var expMonth := OrElse(Get(card, "expMonth"), Get(card, "exp_month"));
    var expYear := OrElse(Get(card, "expYear"), Get(card, "exp_year"));
    (if Truthy(brand) then [ToStr(brand)] else [])
    + (if Truthy(last4) then [Bullets + ToStr(last4)] else [])
    + (if Truthy(expMonth) && Truthy(expYear) then ["(" + ToStr(expMonth) + "/" + ToStr(expYear) + ")"] else [])
  }

  /** The `(month/year)` part closes the label exactly when both month and year are
      truthy; otherwise every part is the brand or the masked last four digits. */
  lemma ExpiryNeedsBoth(card: Value)
    ensures var parts := LabelParts(card);
      var month := OrElse(Get(card, "expMonth"), Get(card, "exp_month"));
      var year := OrElse(Get(card, "expYear"), Get(card, "exp_year"));
      && (Truthy(month) && Truthy(year) ==>
            |parts| > 0 && parts[|parts| - 1] == "(" + ToStr(month) + "/" + ToStr(year) + ")")
      && (!(Truthy(month) && Truthy(year)) ==>
            forall i :: 0 <= i < |parts| ==>
              parts[i] == ToStr(OrElse(Get(card, "cardBrand"), Get(card, "brand"))) || StartsWith(parts[i], Bullets))
  {
    var brand := OrElse(Get(card, "cardBrand"), Get(card, "brand"));
    var last4 := Get(card, "last4");
    var head := (if Truthy(brand) then [ToStr(brand)] else []) + (if Truthy(last4) then [Bullets + ToStr(last4)] else []);
    assert StartsWith(Bullets + ToStr(last4), Bullets);
    assert forall i :: 0 <= i < |head| ==> head[i] == ToStr(brand) || StartsWith(head[i], Bullets);
  }

  function FullCard(id: Value, brand: string, last4: string, month: string, year: string): Value {
    Arr(map["id" := id, "cardBrand" := Str(brand), "last4" := Str(last4), "expMonth" := Str(month), "expYear" := Str(year)])
  }

  lemma FullCardParts(id: Value, brand: string, last4: string, month: string, year: string)
    requires Truthy(Str(brand)) && Truthy(Str(last4)) && Truthy(Str(month)) && Truthy(Str(year))
    ensures LabelParts(FullCard(id, brand, last4, month, year)) == [brand, Bullets + last4, "(" + month + "/" + year + ")"]
  {
  }

  lemma JoinThree(x: string, y: string, z: string)
    ensures JoinSpace([x, y, z]) == x + " " + y + " " + z
  {
    assert [x, y, z][1..] == [y, z];
    assert [y, z][1..] == [z];
    assert JoinSpace([y, z]) == y + " " + z;
    assert x + " " + (y + " " + z) == x + " " + y + " " + z;
  }

  lemma TrimUntouched(s: string)
    requires |s| > 0 && !IsTrimmable(s[0]) && !IsTrimmable(s[|s| - 1])
    ensures Trim(s) == s
  {
    assert TrimLeft(s) == s;
  }

  /** A card whose brand, last four digits and expiry are plain strings gets the
      label `brand •••• last4 (month/year)`. */
  lemma FullLabel(brand: string, last4: string, month: string, year: string, id: Value)
    requires Truthy(Str(brand)) && Truthy(Str(last4)) && Truthy(Str(month)) && Truthy(Str(year))
    requires !IsTrimmable(brand[0])
    ensures Label(FullCard(id, brand, last4, month, year)) == brand + " " + Bullets + last4 + " " + "(" + month + "/" + year + ")"
  {
    var masked := Bullets + last4;
    var tail := "(" + month + "/" + year + ")";
    var s := brand + " " + masked + " " + tail;
    FullCardParts(id, brand, last4, month, year);
    JoinThree(brand, masked, tail);
    assert JoinSpace(LabelParts(FullCard(id, brand, last4, month, year))) == s;
    assert s[0] == brand[0];
    assert s[|s| - 1] == tail[|tail| - 1] == ')';
    TrimUntouched(s);
    assert s == brand + " " + Bullets + last4 + " " + "(" + month + "/" + year + ")";
  }

  /** A card that qualifies for the list: an array with a truthy id. */
  predicate Listed(card: Value) {
    IsArray(card) && Truthy(Get(card, "id"))
  }

  /** One saved payment method: `['id' => (string) $id, 'label' => $label]`. */
  datatype SavedCard = SavedCard(id: string, text: string)

  function Entry(card: Value): (r: SavedCard)
    requires Listed(card)
    ensures r.id != "" && r.text != ""
  {
    TruthyTextIsNonEmpty(Get(card, "id"));
    SavedCard(ToStr(Get(card, "id")), Label(card))
  }

  /** `(string)` of a truthy scalar or array is never empty. */
  lemma TruthyTextIsNonEmpty(v: Value)
    requires Truthy(v)
    ensures ToStr(v) != ""
  {
  }

  /** The listed cards mapped through `f`, in card order. */
  function Collect(cards: seq<Value>, f: Value --> SavedCard): seq<SavedCard>
    requires forall c :: Listed(c) ==> f.requires(c)
    decreases |cards|
  {
    if cards == [] then []
    else
      var card := cards[|cards| - 1];
      Collect(cards[..|cards| - 1], f) + if Listed(card) then [f(card)] else []
  }

  ghost predicate FromListedCard(cards: seq<Value>, f: Value --> SavedCard, e: SavedCard)
    requires forall c :: Listed(c) ==> f.requires(c)
  {
    exists j :: 0 <= j < |cards| && Listed(cards[j]) && e == f(cards[j])
  }

  /** Every collected entry comes from a listed card, and every listed card has its
      entry. */
  lemma {:induction false} CollectIsListedCards(cards: seq<Value>, f: Value --> SavedCard)
    requires forall c :: Listed(c) ==> f.requires(c)
    ensures forall k :: 0 <= k < |Collect(cards, f)| ==> FromListedCard(cards, f, Collect(cards, f)[k])
    ensures forall j :: 0 <= j < |cards| && Listed(cards[j]) ==> f(cards[j]) in Collect(cards, f)
    decreases |cards|
  {
    if cards != [] {
      var init := cards[..|cards| - 1];
      var card := cards[|cards| - 1];
      CollectIsListedCards(init, f);
      var prev := Collect(init, f);
      var saved := Collect(cards, f);
      assert saved == prev + if Listed(card) then [f(card)] else [];
      forall k | 0 <= k < |saved|
        ensures FromListedCard(cards, f, saved[k])
      {
        if k < |prev| {
          assert FromListedCard(init, f, prev[k]);
          var j :| 0 <= j < |init| && Listed(init[j]) && prev[k] == f(init[j]);
          assert cards[j] == init[j];
        } else {
          assert saved[k] == f(cards[|cards| - 1]);
        }
      }
      forall j | 0 <= j < |cards| && Listed(cards[j])
        ensures f(cards[j]) in saved
      {
        if j < |init| {
          assert cards[j] == init[j];
        }
      }
    }
  }

  /** `$saved`: one entry per listed card, in card order. */
  function SavedEntries(cards: seq<Value>): seq<SavedCard> {
    Collect(cards, Entry)
  }

  /** The saved list holds exactly the entries of the listed cards, each with a
      non-empty id and label. */
  lemma SavedEntriesAreListedCards(cards: seq<Value>)
    ensures forall e :: e in SavedEntries(cards) ==>
      e.id != "" && e.text != "" && exists j :: 0 <= j < |cards| && Listed(cards[j]) && e == Entry(cards[j])
    ensures forall j :: 0 <= j < |cards| && Listed(cards[j]) ==> Entry(cards[j]) in SavedEntries(cards)
  {
    CollectIsListedCards(cards, Entry);
    forall e | e in SavedEntries(cards)
      ensures exists j :: 0 <= j < |cards| && Listed(cards[j]) && e == Entry(cards[j])
    {
      var k :| 0 <= k < |SavedEntries(cards)| && SavedEntries(cards)[k] == e;
      assert FromListedCard(cards, Entry, e);
    }
  }

  function EntryValue(e: SavedCard): Value {
    Arr(map["id" := Str(e.id), "label" := Str(e.text)])
  }

  function EntryValues(saved: seq<SavedCard>): (r: seq<Value>)
    ensures |r| == |saved| && forall k :: 0 <= k < |saved| ==> r[k] == EntryValue(saved[k])
  {
    if saved == [] then [] else [EntryValue(saved[0])] + EntryValues(saved[1..])
  }

  /** The provider entry the subscriber offers. */
  function ProviderPayload(saved: seq<SavedCard>): Value {
    Arr(map[
      "providerCode" := Str("square"),
      "supportsSavedPaymentMethods" := Bool(true),
      "savedPaymentMethods" := List(EntryValues(saved)),
      "addCardUrl" := Str("/account/squarepayments/saved-cards"),
      "saveChoiceUrl" := Str("/account/squarepayments/subscription-card-choice"),
      "savedPaymentMethodIdFieldName" := Str("cardId")])
  }

  /** The providers after registration: the credit card handler gets the payload
      unless some other extension already set a provider for it. */
  function WithSquareProvider(providers: Fields, payload: Value): (r: Fields)
    ensures r.Keys == providers.Keys + {CreditCardHandler}
    ensures Field(providers, CreditCardHandler) == Null ==> r[CreditCardHandler] == payload
    ensures forall h :: h in providers && (h != CreditCardHandler || providers[h] != Null) ==> r[h] == providers[h]
  {
    if Field(providers, CreditCardHandler) == Null then providers[CreditCardHandler := payload] else providers
  }

  /** Registering twice changes nothing the second time. */
  lemma RegistrationIsIdempotent(providers: Fields, payload: Value, other: Value)
    requires payload != Null
    ensures WithSquareProvider(WithSquareProvider(providers, payload), other) == WithSquareProvider(providers, payload)
  {
  }

  /** The cards a payload lists: `$cardsPayload['cards'] ?? []`, an array or nothing. */
  function CardsOf(payload: Fields): seq<Value> {
    var cards := Field(payload, "cards");
    if cards.List? then cards.items else []
  }

  /** The data of the page's extension before the subscriber writes: the existing
      ArrayEntity's, or a fresh one's. */
  function DataBefore(extensions: map<string, Extension>): Fields {
    if ExtensionName in extensions && extensions[ExtensionName].ArrayEntity? then extensions[ExtensionName].data
    else map[]
  }

  /** onPageLoaded. `resolvedUri` is the request's `resolved-uri` attribute;
      `cardsPayload` is what the saved cards lookup gave, or the exception it threw. */
  method OnPageLoaded(page: Page, resolvedUri: Value, cardsPayload: Outcome<Fields>)
    modifies page
    ensures ToStr(resolvedUri) != SubscriptionsUri ==> page.extensions == old(page.extensions)
    ensures ToStr(resolvedUri) == SubscriptionsUri && cardsPayload.Thrown? ==>
      page.extensions == old(page.extensions)[ExtensionName := ArrayEntity(DataBefore(old(page.extensions)))]
    ensures ToStr(resolvedUri) == SubscriptionsUri && cardsPayload.Ok? ==>
      var data := DataBefore(old(page.extensions));
      var providers := AsFields(Field(data, "providers"));
      page.extensions == old(page.extensions)[ExtensionName := ArrayEntity(data["providers" :=
        Arr(WithSquareProvider(providers, ProviderPayload(SavedEntries(CardsOf(cardsPayload.value)))))])]
  {
    if ToStr(resolvedUri) != SubscriptionsUri {
      return;
    }
    var data := DataBefore(page.extensions);
    page.extensions := page.extensions[ExtensionName := ArrayEntity(data)];
    var providers := AsFields(Field(data, "providers"));
    if cardsPayload.Thrown? {
      return;
    }
    var cards := CardsOf(cardsPayload.value);
    var saved: seq<SavedCard> := [];
    for i := 0 to |cards|
      invariant saved == Collect(cards[..i], Entry)
    {
      assert cards[..i + 1][..i] == cards[..i];
      var card := cards[i];
      if !IsArray(card) {
        continue;
      }
      var id := Get(card, "id");
      if !Truthy(id) {
        continue;
      }
      saved := saved + [SavedCard(ToStr(id), Label(card))];
    }
    assert cards[..|cards|] == cards;
    providers := WithSquareProvider(providers, ProviderPayload(saved));
    page.extensions := page.extensions[ExtensionName := ArrayEntity(data["providers" := Arr(providers)])];
  }
}

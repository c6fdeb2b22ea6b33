/** SquareSubscriptionOrderProvider: the customer's Square subscriptions, one row per
    subscription, built from the latest qualifying order of each and the stored
    card choice. */
module SubscriptionRows {
  import opened Php
  import opened Library
  import opened Host
  import opened SubscriptionId
  import opened CardChoice

  /** `isRecurringOrder` is exactly true, 1, '1' or 'true'. */
  predicate RecurringFlag(v: Value) {
    v == Bool(true) || v == Int(1) || v == Str("1") || v == Str("true")
  }

  /** `$order->getTransactions()?->first()` */
  function FirstTx(store: Store, o: Order): Option<OrderTx>
    reads store
  {
    if |o.transactions| > 0 && o.transactions[0] in store.txs then Some(store.txs[o.transactions[0]]) else None
  }

  /** `$tx?->getCustomFields() ?? []` */
  function TxFields(tx: Option<OrderTx>): Value {
    if tx.Some? && tx.value.customFields != Null then tx.value.customFields else Arr(map[])
  }

  /** A Square order: the first transaction's handler mentions "Square", or its
      `recurringPayment.meta.provider` is 'square'. */
  predicate IsSquareOrder(tx: Option<OrderTx>) {
    (tx.Some? && tx.value.paymentMethod.Some? && Contains(tx.value.paymentMethod.value.handler, "Square"))
    || Get(Get(Get(TxFields(tx), "recurringPayment"), "meta"), "provider") == Str("square")
  }

  /** The subscription id an order is kept under, when it qualifies: recurring, Square,
      and with a valid subscription id. */
  function Candidate(store: Store, o: Order): (r: Option<string>)
    reads store
    ensures r.Some? ==> IsUuid(r.value) && r == Extract(o.accessors)
    ensures r.Some? <==> (RecurringFlag(Get(o.customFields, "isRecurringOrder")) && IsSquareOrder(FirstTx(store, o))
      && Extract(o.accessors).Some? && IsUuid(Extract(o.accessors).value))
  {
    var sub := Extract(o.accessors);
    if RecurringFlag(Get(o.customFields, "isRecurringOrder")) && IsSquareOrder(FirstTx(store, o))
       && sub.Some? && IsUuid(sub.value)
    then sub
    else None
  }

  predicate HasKey(kept: seq<(string, nat)>, sub: string) {
    exists k :: 0 <= k < |kept| && kept[k].0 == sub
  }

  /** `$latestBySubscription`: the subscription ids in first-seen order, each with the
      position in `found` of the first order kept for it. */
  function Kept(store: Store, found: seq<Order>): seq<(string, nat)>
    reads store
    decreases |found|
  {
    if found == [] then []
    else
      var prev := Kept(store, found[..|found| - 1]);
      var c := Candidate(store, found[|found| - 1]);
      if c.Some? && !HasKey(prev, c.value) then prev + [(c.value, |found| - 1)] else prev
  }

  /** Every kept entry is the first qualifying order for its id. */
  lemma {:induction false} KeptIsFirst(store: Store, found: seq<Order>)
    ensures forall k :: 0 <= k < |Kept(store, found)| ==>
      && Kept(store, found)[k].1 < |found|
      && Candidate(store, found[Kept(store, found)[k].1]) == Some(Kept(store, found)[k].0)
      && forall j :: 0 <= j < Kept(store, found)[k].1 ==> Candidate(store, found[j]) != Some(Kept(store, found)[k].0)
    decreases |found|
  {
    if found != [] {
      var init := found[..|found| - 1];
      KeptIsFirst(store, init);
      var prev := Kept(store, init);
      var kept := Kept(store, found);
      var c := Candidate(store, found[|found| - 1]);
      var appended := c.Some? && !HasKey(prev, c.value);
      assert appended ==> kept == prev + [(c.value, |found| - 1)];
      assert !appended ==> kept == prev;
      forall k | 0 <= k < |kept|
        ensures kept[k].1 < |found| && Candidate(store, found[kept[k].1]) == Some(kept[k].0)
        ensures forall j :: 0 <= j < kept[k].1 ==> Candidate(store, found[j]) != Some(kept[k].0)
      {
        if k < |prev| {
          assert kept[k] == prev[k];
          assert init[prev[k].1] == found[prev[k].1];
          assert forall j :: 0 <= j < prev[k].1 ==> init[j] == found[j];
        } else {
          assert appended && kept[k] == (c.value, |found| - 1);
          forall j | 0 <= j < kept[k].1
            ensures Candidate(store, found[j]) != Some(kept[k].0)
          {
            if Candidate(store, found[j]) == Some(kept[k].0) {
              assert init[j] == found[j];
              KeptHasEvery(store, init, j);
            }
          }
        }
      }
    }
  }

  /** No subscription id is kept twice. */
  lemma {:induction false} KeptDistinct(store: Store, found: seq<Order>)
    ensures forall a, b :: 0 <= a < b < |Kept(store, found)| ==> Kept(store, found)[a].0 != Kept(store, found)[b].0
    decreases |found|
  {
    if found != [] {
      var init := found[..|found| - 1];
      KeptDistinct(store, init);
      var prev := Kept(store, init);
      var c := Candidate(store, found[|found| - 1]);
      if c.Some? && !HasKey(prev, c.value) {
        var kept := Kept(store, found);
        assert kept == prev + [(c.value, |found| - 1)];
        forall a, b | 0 <= a < b < |kept|
          ensures kept[a].0 != kept[b].0
        {
          assert kept[a] == prev[a];
          if b == |prev| {
            assert kept[b].0 == c.value;
          } else {
            assert kept[b] == prev[b];
          }
        }
      }
    }
  }

  /** The id of every qualifying order is kept. */
  lemma {:induction false} KeptHasEvery(store: Store, found: seq<Order>, j: nat)
    requires j < |found| && Candidate(store, found[j]).Some?
    ensures HasKey(Kept(store, found), Candidate(store, found[j]).value)
    decreases |found|
  {
    var init := found[..|found| - 1];
    var prev := Kept(store, init);
    var kept := Kept(store, found);
    var c := Candidate(store, found[|found| - 1]);
    var appended := c.Some? && !HasKey(prev, c.value);
    assert appended ==> kept == prev + [(c.value, |found| - 1)];
    assert !appended ==> kept == prev;
    if j < |init| {
      assert init[j] == found[j];
      KeptHasEvery(store, init, j);
      var k :| 0 <= k < |prev| && prev[k].0 == Candidate(store, init[j]).value;
      assert kept[k] == prev[k];
    } else if appended {
      assert kept[|prev|].0 == Candidate(store, found[j]).value;
    } else {
      var k :| 0 <= k < |prev| && prev[k].0 == Candidate(store, found[j]).value;
      assert kept[k] == prev[k];
    }
  }

  /** The choice search: this customer's choices for the kept subscriptions, in
      table order. */
  function Matching(rows: seq<Choice>, customerId: string, kept: seq<(string, nat)>): seq<Choice>
    decreases |rows|
  {
    if rows == [] then []
    else
      var c := rows[|rows| - 1];
      Matching(rows[..|rows| - 1], customerId, kept)
        + if c.customerId == customerId && HasKey(kept, c.subscriptionId) then [c] else []
  }

  /** `$choiceBySubscription`: a later choice for the same subscription overwrites. */
  function ChoiceMap(choices: seq<Choice>): map<string, string>
    decreases |choices|
  {
    if choices == [] then map[]
    else
      var c := choices[|choices| - 1];
      ChoiceMap(choices[..|choices| - 1])[c.subscriptionId := c.squareCardId]
  }

  /** With one choice per (customer, subscription), the map holds exactly the stored
      choice of each kept subscription. */
  lemma {:induction false} ChoiceMapIsStoredChoice(rows: seq<Choice>, customerId: string, kept: seq<(string, nat)>, sub: string)
    requires forall i, j :: 0 <= i < j < |rows| ==>
      rows[i].customerId != rows[j].customerId || rows[i].subscriptionId != rows[j].subscriptionId
    ensures sub in ChoiceMap(Matching(rows, customerId, kept)) <==>
      HasKey(kept, sub) && exists i :: 0 <= i < |rows| && rows[i].customerId == customerId && rows[i].subscriptionId == sub
    ensures forall i :: (0 <= i < |rows| && rows[i].customerId == customerId && rows[i].subscriptionId == sub
      && HasKey(kept, sub)) ==> ChoiceMap(Matching(rows, customerId, kept))[sub] == rows[i].squareCardId
    decreases |rows|
  {
    if rows != [] {
      var init := rows[..|rows| - 1];
      var c := rows[|rows| - 1];
      ChoiceMapIsStoredChoice(init, customerId, kept, sub);
      var m := Matching(rows, customerId, kept);
      var mi := Matching(init, customerId, kept);
      if c.customerId == customerId && HasKey(kept, c.subscriptionId) {
        assert m == mi + [c];
        assert m[..|m| - 1] == mi;
      } else {
        assert m == mi;
      }
      assert forall i :: 0 <= i < |init| ==> init[i] == rows[i];
    }
  }

  /** One row of the overview. The order date is kept as a timestamp (its display
      format is not part of this model). */
  datatype SubscriptionRow = SubscriptionRow(
    subscriptionId: string,
    lastOrderId: string,
    lastOrderNumber: string,
    lastOrderDate: int,
    lastOrderAmount: real,
    lastOrderCurrencyIsoCode: Option<string>,
    paymentState: Option<string>,
    chosenSquareCardId: Option<string>)

  /** The card reference stored on the order transaction, when a non-empty string. */
  function FallbackCard(tx: Option<OrderTx>): Option<string> {
    var reference := Get(Get(TxFields(tx), "recurringPayment"), "reference");
    if reference.Str? && reference.s != "" then Some(reference.s) else None
  }

  function RowFor(store: Store, sub: string, o: Order, choices: map<string, string>): SubscriptionRow
    reads store
  {
    var tx := FirstTx(store, o);
    SubscriptionRow(sub, o.id, o.orderNumber, o.orderDate, o.amountTotal, o.currency,
      if tx.Some? then Some(TechnicalName(tx.value.state)) else None,
      if sub in choices then Some(choices[sub]) else FallbackCard(tx))
  }

  /** The first loop: the first qualifying order per subscription id. */
  method LatestBySubscription(store: Store, found: seq<Order>) returns (latest: seq<(string, nat)>)
    ensures latest == Kept(store, found)
  {
    latest := [];
    for i := 0 to |found|
      invariant latest == Kept(store, found[..i])
    {
      assert found[..i + 1][..i] == found[..i];
      var sub := Candidate(store, found[i]);
      if sub.Some? && !HasKey(latest, sub.value) {
        latest := latest + [(sub.value, i)];
      }
    }
    assert found[..|found|] == found;
  }

  /** The second loop: the card of each searched choice by subscription id. */
  method ChoiceBySubscription(choices: seq<Choice>) returns (m: map<string, string>)
    ensures m == ChoiceMap(choices)
  {
    m := map[];
    for i := 0 to |choices|
      invariant m == ChoiceMap(choices[..i])
    {
      assert choices[..i + 1][..i] == choices[..i];
      m := m[choices[i].subscriptionId := choices[i].squareCardId];
    }
    assert choices[..|choices|] == choices;
  }

  /** The third loop: one row per kept subscription, in kept order. */
  method BuildRows(store: Store, found: seq<Order>, latest: seq<(string, nat)>, choices: map<string, string>)
    returns (rows: seq<SubscriptionRow>)
    requires forall k :: 0 <= k < |latest| ==> latest[k].1 < |found|
    ensures |rows| == |latest|
    ensures forall k :: 0 <= k < |rows| ==> rows[k] == RowFor(store, latest[k].0, found[latest[k].1], choices)
  {
    rows := [];
    for k := 0 to |latest|
      invariant |rows| == k
      invariant forall j :: 0 <= j < k ==> rows[j] == RowFor(store, latest[j].0, found[latest[j].1], choices)
    {
      rows := rows + [RowFor(store, latest[k].0, found[latest[k].1], choices)];
    }
  }

  /** getSubscriptionRows. `found` is the order search: this customer's orders, newest
      first. */
  method GetSubscriptionRows(store: Store, repo: ChoiceRepository, customer: Option<string>, found: seq<Order>)
    returns (rows: seq<SubscriptionRow>)
    requires repo.Valid()
    ensures customer.None? ==> rows == []
    ensures customer.Some? ==>
      var kept := Kept(store, found);
      && |rows| == |kept|
      && (forall a, b :: 0 <= a < b < |rows| ==> rows[a].subscriptionId != rows[b].subscriptionId)
      && forall k :: 0 <= k < |rows| ==>
           && kept[k].1 < |found|
           && rows[k] == RowFor(store, kept[k].0, found[kept[k].1], ChoiceMap(Matching(repo.rows, customer.value, kept)))
           && (repo.Find(customer.value, kept[k].0).Some? ==>
                 rows[k].chosenSquareCardId == Some(repo.rows[repo.Find(customer.value, kept[k].0).value].squareCardId))
           && (repo.Find(customer.value, kept[k].0).None? ==>
                 rows[k].chosenSquareCardId == FallbackCard(FirstTx(store, found[kept[k].1])))
  {
    if customer.None? {
      return [];
    }
    var latest := LatestBySubscription(store, found);
    KeptIsFirst(store, found);
    KeptDistinct(store, found);
    if latest == [] {
      return [];
    }
    var choiceBySubscription := ChoiceBySubscription(Matching(repo.rows, customer.value, latest));
    rows := BuildRows(store, found, latest, choiceBySubscription);
    forall k | 0 <= k < |rows|
      ensures repo.Find(customer.value, latest[k].0).Some? ==>
        rows[k].chosenSquareCardId == Some(repo.rows[repo.Find(customer.value, latest[k].0).value].squareCardId)
      ensures repo.Find(customer.value, latest[k].0).None? ==>
        rows[k].chosenSquareCardId == FallbackCard(FirstTx(store, found[latest[k].1]))
    {
      ChoiceMapIsStoredChoice(repo.rows, customer.value, latest, latest[k].0);
      assert HasKey(latest, latest[k].0);
    }
  }
}

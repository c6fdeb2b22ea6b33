/** The host shop's entities the plugin reads and writes: orders, order transactions
    (with their state-machine state and custom fields), payment methods and customers.
    The host's repositories are one mutable store. */
module Host {
  import opened Php
  import opened Library

  /** Uuid::isValid of the host: 32 lower-case hexadecimal digits. */
  predicate IsUuid(s: string) {
    |s| == 32 && forall i :: 0 <= i < |s| ==> s[i] in "0123456789abcdef"
  }

  datatype PaymentMethod = PaymentMethod(id: string, name: Option<string>, handler: string)

  /** An order transaction: `customFields` is Null or an array. */
  datatype OrderTx = OrderTx(
    id: string,
    orderId: string,
    state: TxState,
    customFields: Value,
    paymentMethod: Option<PaymentMethod>,
    totalPrice: real,
    createdAt: Option<int>)

  /** What the subscription-id extractor can see on an order object: each accessor is
      either missing (None) or present with the value it returns. */
  datatype OrderObject = OrderObject(
    s25Getter: Option<Value>,
    genericGet: Option<Value>,
    arrayOffset: Option<Value>,
    customFieldsGetter: Option<Value>)

  datatype Order = Order(
    id: string,
    orderNumber: string,
    orderDate: int,
    currency: Option<string>,
    amountTotal: real,
    customerId: Option<string>,
    customFields: Value,
    transactions: seq<string>,
    accessors: OrderObject)

  /** A customer of the shop; `customFields` is Null or an array. */
  datatype Customer = Customer(id: string, firstName: string, lastName: string, customFields: Value)

  /** The transaction map after the state handler moves `txId` to `to`. */
  function Moved(txs: map<string, OrderTx>, txId: string, to: TxState): map<string, OrderTx> {
    if txId in txs then txs[txId := txs[txId].(state := to)] else txs
  }

  /** A second move of the same transaction overrides the first. */
  lemma MovedTwice(txs: map<string, OrderTx>, txId: string, first: TxState, second: TxState)
    ensures Moved(Moved(txs, txId, first), txId, second) == Moved(txs, txId, second)
  {
    if txId in txs {
      var once := txs[txId := txs[txId].(state := first)];
      assert once[txId].(state := second) == txs[txId].(state := second);
    }
  }

  /** The id of the first payment method the repository lists for a handler, if any. */
  function HandlerMethodId(methods: seq<PaymentMethod>, handler: string): (r: Option<string>)
    ensures r.Some? <==> exists i :: 0 <= i < |methods| && methods[i].handler == handler
    ensures r.Some? ==> exists i :: (0 <= i < |methods| && methods[i].handler == handler && methods[i].id == r.value
      && forall j :: 0 <= j < i ==> methods[j].handler != handler)
  {
    match FirstWhere(methods, (m: PaymentMethod) => m.handler == handler)
    case Some(i) => Some(methods[i].id)
    case None => None
  }

  /** The payment method name a wallet gateway records: the `paymentMethodName` entry
      of the context's extension of that name when it is an ArrayStruct (`?? ''`,
      cast to string), '' otherwise. */
  function ContextMethodName(extension: Option<Fields>): (r: string)
    ensures extension.None? ==> r == ""
    ensures extension.Some? && Field(extension.value, "paymentMethodName").Str? ==>
      r == extension.value["paymentMethodName"].s
  {
    if extension.Some? then ToStr(OrElse(Field(extension.value, "paymentMethodName"), Str(""))) else ""
  }

  class Store {
    var orders: map<string, Order>
    var txs: map<string, OrderTx>
    var customers: map<string, Customer>

    constructor (orders: map<string, Order>, txs: map<string, OrderTx>, customers: map<string, Customer>)
      ensures this.orders == orders && this.txs == txs && this.customers == customers
    {
      this.orders := orders;
      this.txs := txs;
      this.customers := customers;
    }

    /** The order an order transaction belongs to, when both exist. */
    function OrderOfTx(txId: string): (r: Option<Order>)
      reads this
      ensures r.Some? ==> txId in txs && txs[txId].orderId in orders && r.value == orders[txs[txId].orderId]
      ensures r.None? ==> txId !in txs || txs[txId].orderId !in orders
    {
      if txId in txs && txs[txId].orderId in orders then Some(orders[txs[txId].orderId]) else None
    }

    /** The state handler's paid/authorize/fail: the order transaction moves to `to`. */
    method Transition(txId: string, to: TxState)
      modifies this
      ensures txs == if txId in old(txs) then old(txs)[txId := old(txs)[txId].(state := to)] else old(txs)
      ensures orders == old(orders) && customers == old(customers)
    {
      if txId in txs {
        txs := txs[txId := txs[txId].(state := to)];
      }
    }

    /** Upsert of an order transaction's custom fields. */
    method SetTxCustomFields(txId: string, fields: Fields)
      modifies this
      ensures txs == if txId in old(txs) then old(txs)[txId := old(txs)[txId].(customFields := Arr(fields))] else old(txs)
      ensures orders == old(orders) && customers == old(customers)
    {
      if txId in txs {
        txs := txs[txId := txs[txId].(customFields := Arr(fields))];
      }
    }

    /** Update of a customer's custom fields. */
    method SetCustomerFields(customerId: string, fields: Fields)
      modifies this
      ensures customers == if customerId in old(customers) then old(customers)[customerId := old(customers)[customerId].(customFields := Arr(fields))] else old(customers)
      ensures orders == old(orders) && txs == old(txs)
    {
      if customerId in customers {
        customers := customers[customerId := customers[customerId].(customFields := Arr(fields))];
      }
    }
  }
}

/** The plugin's own transaction ledger (the `squarepayments_transaction` table):
    one row per processor event, keyed by a fresh id per append. */
module TransactionLedger {
  import opened Php
  import opened Library

  /** A ledger row. `customFields` holds the enrichment record once it is written. */
  datatype Row = Row(
    orderId: string,
    paymentMethodName: string,
    transactionId: string,
    status: TransactionStatus,
    customFields: Fields)

  /** Whether the required `transactionId` column accepts a value: a non-empty string. */
  predicate Storable(transactionId: Value) {
    transactionId.Str? && transactionId.s != ""
  }

  /** The message of the exception a rejected write raises (the host's text is not
      part of this model). */
  const WriteRejected: string := "ledger write rejected"

  /** The ledger table. A row's id is its position, so the ids handed out by the
      random generator are modelled by a counter that never repeats. */
  class Ledger {
    var rows: seq<Row>

    constructor ()
      ensures rows == []
    {
      rows := [];
    }

    /** addTransaction: appends exactly the given four fields under a fresh id and
        returns that id. The processor id is a required string column, so a value that
        is not a non-empty string makes the write fail and nothing is stored. The
        order-association upsert writes the same row again. */
    method AddTransaction(orderId: string, paymentMethodName: string, transactionId: Value, status: TransactionStatus)
      returns (id: Option<nat>)
      modifies this
      ensures id.Some? <==> Storable(transactionId)
      ensures id.Some? ==> id.value == |old(rows)| && id.value < |rows|
      ensures id.Some? ==> rows == old(rows) + [Row(orderId, paymentMethodName, transactionId.s, status, map[])]
      ensures id.None? ==> rows == old(rows)
    {
      if Storable(transactionId) {
        id := Some(|rows|);
        rows := rows + [Row(orderId, paymentMethodName, transactionId.s, status, map[])];
      } else {
        id := None;
      }
    }

    /** getTransactionByOrderId: the first row stored for the order, if any. */
    function TransactionByOrderId(orderId: string): (r: Option<nat>)
      reads this
      ensures r.Some? ==> r.value < |rows| && rows[r.value].orderId == orderId
      ensures r.Some? ==> forall j :: 0 <= j < r.value ==> rows[j].orderId != orderId
      ensures r.None? <==> forall j :: 0 <= j < |rows| ==> rows[j].orderId != orderId
    {
      FirstWhere(rows, (row: Row) => row.orderId == orderId)
    }

    /** The first row carrying the processor's payment id (the webhook's lookup). */
    function TransactionByProcessorId(paymentId: string): (r: Option<nat>)
      reads this
      ensures r.Some? ==> r.value < |rows| && rows[r.value].transactionId == paymentId
      ensures r.Some? ==> forall j :: 0 <= j < r.value ==> rows[j].transactionId != paymentId
      ensures r.None? <==> forall j :: 0 <= j < |rows| ==> rows[j].transactionId != paymentId
    {
      FirstWhere(rows, (row: Row) => row.transactionId == paymentId)
    }

    /** The update half of updateSquareTransactionCustomFields: an existing row's
        custom fields are replaced wholesale; an unknown id changes nothing. */
    method ReplaceCustomFields(id: nat, fields: Fields)
      modifies this
      ensures id < |old(rows)| ==> rows == old(rows)[id := old(rows)[id].(customFields := fields)]
      ensures id >= |old(rows)| ==> rows == old(rows)
    {
      if id < |rows| {
        rows := rows[id := rows[id].(customFields := fields)];
      }
    }
  }

  /** Two appends for the same order and processor id leave two distinct rows, and an
      order lookup afterwards still finds the earlier one. */
  method AppendTwice(ledger: Ledger, orderId: string, name: string, txId: string, status: TransactionStatus)
    returns (first: Option<nat>, second: Option<nat>)
    requires txId != ""
    modifies ledger
    ensures first.Some? && second.Some?
    ensures first.value < second.value < |ledger.rows|
    ensures ledger.rows[first.value] == ledger.rows[second.value]
    ensures ledger.TransactionByOrderId(orderId).Some?
    ensures ledger.TransactionByOrderId(orderId).value <= first.value
  {
    first := ledger.AddTransaction(orderId, name, Str(txId), status);
    second := ledger.AddTransaction(orderId, name, Str(txId), status);
    assert ledger.rows[first.value].orderId == orderId;
  }
}

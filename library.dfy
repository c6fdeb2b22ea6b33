/** The plugin's own enumerations (src/Library) and the host's order-transaction states. */
module Library {
  import opened Php

  /** TransactionStatuses: the status stored on a ledger row. */
  datatype TransactionStatus = Authorized | Pending | Paid | Fail | Refund | Voided

  function StatusValue(s: TransactionStatus): string {
    match s
    case Authorized => "authorized"
    case Pending => "pending"
    case Paid => "paid"
    case Fail => "fail"
    case Refund => "refund"
    case Voided => "voided"
  }

  /** TransactionType: the payment modes the finalize step knows by name. */
  datatype TransactionType = Store | Charge | ChargeAndStore

  function TypeValue(t: TransactionType): string {
    match t
    case Store => "STORE"
    case Charge => "CHARGE"
    case ChargeAndStore => "CHARGE_AND_STORE"
  }

  /** The host's order-transaction states (OrderTransactionStates), by technical name. */
  datatype TxState =
    | Open | InProgress | AuthorizedState | PaidState | PaidPartially | Cancelled
    | Refunded | RefundedPartially | Failed | Reminded | Unconfirmed | Chargeback

  function TechnicalName(s: TxState): string {
    match s
    case Open => "open"
    case InProgress => "in_progress"
    case AuthorizedState => "authorized"
    case PaidState => "paid"
    case PaidPartially => "paid_partially"
    case Cancelled => "cancelled"
    case Refunded => "refunded"
    case RefundedPartially => "refunded_partially"
    case Failed => "failed"
    case Reminded => "reminded"
    case Unconfirmed => "unconfirmed"
    case Chargeback => "chargeback"
  }

  /** The configured payment mode in which a charge is captured immediately. */
  const AuthorizeAndCapture: string := "AUTHORIZE_AND_CAPTURE"

  /** Handler identifiers of the three gateways. */
  const CreditCardHandler: string := "SquarePayments\\Gateways\\CreditCard"
  const ApplePayHandler: string := "SquarePayments\\Gateways\\ApplePay"
  const GooglePayHandler: string := "SquarePayments\\Gateways\\GooglePay"
}

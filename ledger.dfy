/** The records of the payment store and the bodies of its service endpoints. */
module Ledger {
  import opened Common

  /** The three states the service reports for a payment, and their wire names. */
  datatype PaymentStatus = Pending | Completed | Cancelled {
    function Wire(): string {
      match this
      case Pending => "pending"
      case Completed => "completed"
      case Cancelled => "cancelled"
    }
  }

  /** The status named by a wire string, if any. */
  function StatusOf(s: string): (r: Option<PaymentStatus>)
    ensures r.Some? ==> r.value.Wire() == s
  {
    if s == "pending" then Some(Pending)
    else if s == "completed" then Some(Completed)
    else if s == "cancelled" then Some(Cancelled)
    else None
  }

  /** Every status is read back from its wire name; distinct statuses have distinct names. */
  lemma StatusRoundTrip(st: PaymentStatus)
    ensures StatusOf(st.Wire()) == Some(st)
  {
  }

  datatype Account = Account(id: string, name: string, balance: int, created_at: string, updated_at: string)

  function AccountId(a: Account): string {
    a.id
  }

  /** The joined `vendors` display field of a payment. */
  datatype VendorRef = VendorRef(name: string)

  /**
   * The joined `accounts` display field of a payment. Either key may be
   * missing: a server copy carries only `balance`, and a merge that spreads
   * an absent local `accounts` produces no `name`.
   */
  datatype AccountRef = AccountRef(name: Option<string>, balance: Option<int>)

  /**
   * A payment as cached. `status` is kept as the service sent it (a wire
   * string) because the display falls back when it is empty.
   */
  datatype Payment = Payment(
    id: string,
    vendor_id: string,
    account_id: string,
    amount: int,
    payment_date: string,
    status: string,
    created_at: string,
    updated_at: string,
    vendors: Option<VendorRef>,
    accounts: Option<AccountRef>)

  function PaymentId(p: Payment): string {
    p.id
  }

  /** `p.accounts?.name`. */
  function AccountName(p: Payment): Option<string> {
    match p.accounts
    case Some(a) => a.name
    case None => None
  }

  /** `p.accounts?.balance`. */
  function ReportedBalance(p: Payment): Option<int> {
    match p.accounts
    case Some(a) => a.balance
    case None => None
  }

  /** `p.vendors?.name`. */
  function VendorName(p: Payment): Option<string> {
    match p.vendors
    case Some(v) => Some(v.name)
    case None => None
  }

  /** A number as a form delivers it: `parseFloat` of an empty or garbled field is NaN. */
  datatype Number = Num(value: int) | NaN

  datatype CreatePaymentRequest = CreatePaymentRequest(vendor_id: string, account_id: string, amount: Number, payment_date: string)

  /** The `data` of a payment endpoint's body; every key is optional. */
  datatype PaymentData = PaymentData(
    payment: Option<Payment>,
    payments: Option<seq<Payment>>,
    previous_balance: Option<int>,
    new_balance: Option<int>,
    amount_deducted: Option<int>,
    current_balance: Option<int>,
    payment_amount: Option<int>)

  /** The `data` of the accounts endpoint. */
  datatype AccountsData = AccountsData(accounts: seq<Account>)

  /** The `data` of the report endpoint. */
  datatype ReportData = ReportData(payments: seq<Payment>, accounts: seq<Account>)

  /** The single-slot outcome of the most recent create or confirm attempt. */
  datatype TransactionDetails = TransactionDetails(
    previousBalance: Option<int>,
    newBalance: Option<int>,
    amountDeducted: Option<int>,
    currentBalance: Option<int>,
    paymentAmount: Option<int>)

  /** The snapshot `generateReport` returns. */
  datatype Report = Report(payments: seq<Payment>, accounts: seq<Account>, generated_at: string)
}

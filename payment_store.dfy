/**
 * The payment store: cached payments and accounts, the `loading` and
 * `error` slots, and the balance details of the last create or confirm
 * attempt. As in the vendor store, every action first sets `loading` and
 * clears `error` (Started), awaits the service, and then updates the cache
 * from the reply and clears `loading` in its `finally` block (the *ed
 * functions below).
 */
module PaymentCache {
  import opened Common
  import opened Service
  import opened Ledger
  import Lists
  import VendorCache
  import ReportGrid

  const FetchPaymentsFailed := "Failed to fetch payments"
  const FetchAccountsFailed := "Failed to fetch accounts"
  const CreateFailed := "Failed to create payment"
  const ConfirmFailed := "Failed to confirm payment"
  const DeleteFailed := "Failed to delete payment"
  const ReportFailed := "Failed to generate report"
  const ExcelFailedPrefix := "Failed to generate Excel report: "

  datatype PaymentState = PaymentState(
    payments: seq<Payment>,
    accounts: seq<Account>,
    loading: bool,
    error: Option<string>,
    lastTransactionDetails: Option<TransactionDetails>)

  /** The outcome of an action that returns a boolean. */
  datatype Transition = Transition(state: PaymentState, ok: bool)

  /**
   * The outcome of `generateReport`: the new state, the snapshot it returns
   * (`null` is None), and the worksheet writes it issues.
   */
  datatype ReportTransition = ReportTransition(state: PaymentState, report: Option<Report>, writes: seq<ReportGrid.Write>)

  /** `set({ loading: true, error: null })`, the synchronous part of every action. */
  function Started(s: PaymentState): (r: PaymentState)
    ensures r.loading && r.error.None?
    ensures r.payments == s.payments && r.accounts == s.accounts && r.lastTransactionDetails == s.lastTransactionDetails
  {
    s.(loading := true, error := None)
  }

  /** `data.success && data.data?.<field>`: a success body whose payload is present. */
  predicate HasPayment(reply: Reply<PaymentData>): (created: bool)
    ensures created <==> Succeeded(reply) && reply.body.data.Some? && reply.body.data.value.payment.Some?
  {
    Delivered(reply) && reply.body.data.value.payment.Some?
  }

  /** What `fetchPayments` does once its reply arrives. */
  function PaymentsFetched(s: PaymentState, reply: Reply<PaymentData>): (r: PaymentState)
    ensures !r.loading && r.accounts == s.accounts && r.lastTransactionDetails == s.lastTransactionDetails
    ensures Delivered(reply) && reply.body.data.value.payments.Some? ==>
      r.payments == reply.body.data.value.payments.value && r.error == s.error
    ensures !(Delivered(reply) && reply.body.data.value.payments.Some?) ==> r.payments == s.payments
    ensures reply.Received? && !(Delivered(reply) && reply.body.data.value.payments.Some?) ==>
      r.error == Some(ErrorOrMessage(reply.body))
    ensures reply.Threw? ==> r.error == Some(FetchPaymentsFailed)
  {
    match reply
    case Threw => s.(loading := false, error := Some(FetchPaymentsFailed))
    case Received(body) =>
      if body.success && body.data.Some? && body.data.value.payments.Some? then
        s.(loading := false, payments := body.data.value.payments.value)
      else
        s.(loading := false, error := Some(ErrorOrMessage(body)))
  }

  /** What `fetchAccounts` does once its reply arrives; its failure text is the message alone. */
  function AccountsFetched(s: PaymentState, reply: Reply<AccountsData>): (r: PaymentState)
    ensures !r.loading && r.payments == s.payments && r.lastTransactionDetails == s.lastTransactionDetails
    ensures Delivered(reply) ==> r.accounts == reply.body.data.value.accounts && r.error == s.error
    ensures !Delivered(reply) ==> r.accounts == s.accounts
    ensures reply.Received? && !reply.body.success ==> r.error == Some(reply.body.message)
    ensures (reply.Threw? || Succeeded(reply)) && !Delivered(reply) ==> r.error == Some(FetchAccountsFailed)
  {
    match reply
    case Threw => s.(loading := false, error := Some(FetchAccountsFailed))
    case Received(body) =>
      if !body.success then s.(loading := false, error := Some(body.message))
      else match body.data
        case Some(d) => s.(loading := false, accounts := d.accounts)
        // `data.data.accounts` throws a TypeError, caught by the catch block
        case None => s.(loading := false, error := Some(FetchAccountsFailed))
  }

  /** `vendor?.name || 'Unknown Vendor'`, where `vendor` is the first cached vendor with the id. */
  function JoinedVendorName(vendors: seq<VendorCache.Vendor>, id: string): (name: string)
    ensures (forall i :: 0 <= i < |vendors| ==> vendors[i].id != id) ==> name == "Unknown Vendor"
  {
    match Lists.FindKey(vendors, VendorCache.VendorId, id)
    case Some(i) => OrElse(vendors[i].name, "Unknown Vendor")
    case None => "Unknown Vendor"
  }

  /** With a cached vendor of that id, the joined name is the first such vendor's, or "Unknown Vendor" if that name is empty. */
  lemma JoinedVendorNameOfFirst(vendors: seq<VendorCache.Vendor>, id: string, i: nat)
    requires i < |vendors| && vendors[i].id == id
    requires forall j :: 0 <= j < i ==> vendors[j].id != id
    ensures JoinedVendorName(vendors, id) == OrElse(vendors[i].name, "Unknown Vendor")
  {
  }

  /** `{ name: account?.name || 'Unknown Account', balance: account?.balance }`, where `account` is the first cached account with the id. */
  function JoinedAccount(accounts: seq<Account>, id: string): (r: AccountRef)
    ensures (forall i :: 0 <= i < |accounts| ==> accounts[i].id != id) ==> r == AccountRef(Some("Unknown Account"), None)
  {
    match Lists.FindKey(accounts, AccountId, id)
    case Some(i) => AccountRef(Some(OrElse(accounts[i].name, "Unknown Account")), Some(accounts[i].balance))
    case None => AccountRef(Some("Unknown Account"), None)
  }

  /** With a cached account of that id, the joined name and balance are the first such account's. */
  lemma JoinedAccountOfFirst(accounts: seq<Account>, id: string, i: nat)
    requires i < |accounts| && accounts[i].id == id
    requires forall j :: 0 <= j < i ==> accounts[j].id != id
    ensures JoinedAccount(accounts, id) == AccountRef(Some(OrElse(accounts[i].name, "Unknown Account")), Some(accounts[i].balance))
  {
  }

  /**
   * The record `createPayment` appends: the service's payment with the
   * vendor's and the account's names joined in from the caches.
   */
  function WithRelations(payment: Payment, request: CreatePaymentRequest, vendors: seq<VendorCache.Vendor>, accounts: seq<Account>): (r: Payment)
    ensures SameRecord(r, payment)
    ensures VendorName(r) == Some(JoinedVendorName(vendors, request.vendor_id))
    ensures r.accounts == Some(JoinedAccount(accounts, request.account_id))
  {
    payment.(vendors := Some(VendorRef(JoinedVendorName(vendors, request.vendor_id))),
             accounts := Some(JoinedAccount(accounts, request.account_id)))
  }

  /** `lastTransactionDetails` after a failed create or confirm: the balance and amount the service reported, if it sent a payload. */
  function FailureDetails(body: Response<PaymentData>): (r: Option<TransactionDetails>)
    ensures body.data.None? <==> r.None?
    ensures r.Some? ==> r.value.previousBalance.None? && r.value.newBalance.None? && r.value.amountDeducted.None?
    ensures r.Some? ==>
      r.value.currentBalance == body.data.value.current_balance && r.value.paymentAmount == body.data.value.payment_amount
  {
    match body.data
    case Some(d) => Some(TransactionDetails(None, None, None, d.current_balance, d.payment_amount))
    case None => None
  }

  /** What `createPayment` does once its reply arrives, given the vendors cached in the vendor store. */
  function PaymentCreated(s: PaymentState, vendors: seq<VendorCache.Vendor>, request: CreatePaymentRequest, reply: Reply<PaymentData>): (t: Transition)
    ensures !t.state.loading && t.state.accounts == s.accounts
    ensures t.ok <==> HasPayment(reply)
    ensures t.ok ==>
      t.state.payments == s.payments + [WithRelations(reply.body.data.value.payment.value, request, vendors, s.accounts)]
    ensures t.ok ==> t.state.error == s.error && t.state.lastTransactionDetails == s.lastTransactionDetails
    ensures !t.ok ==> t.state.payments == s.payments
    ensures reply.Received? && !t.ok ==>
      t.state.error == Some(ErrorOrMessage(reply.body)) && t.state.lastTransactionDetails == FailureDetails(reply.body)
    ensures reply.Threw? ==>
      t.state.error == Some(CreateFailed) && t.state.lastTransactionDetails == s.lastTransactionDetails
  {
    match reply
    case Threw => Transition(s.(loading := false, error := Some(CreateFailed)), false)
    case Received(body) =>
      if body.success && body.data.Some? && body.data.value.payment.Some? then
        var p := WithRelations(body.data.value.payment.value, request, vendors, s.accounts);
        Transition(s.(loading := false, payments := s.payments + [p]), true)
      else
        Transition(s.(loading := false, error := Some(ErrorOrMessage(body)), lastTransactionDetails := FailureDetails(body)), false)
  }

  /** Equal except for the two joined display fields. */
  predicate SameRecord(a: Payment, b: Payment) {
    a.(vendors := b.vendors, accounts := b.accounts) == b
  }

  /**
   * `{ ...payment, ...server, accounts: { ...payment.accounts, balance: server.accounts?.balance } }`:
   * the service's copy wins on every field it carries, the cached account
   * name stays, and the balance is the one the service reports.
   */
  function MergeConfirmed(local: Payment, server: Payment): (r: Payment)
    ensures SameRecord(r, server)
    ensures VendorName(r) == (if server.vendors.Some? then VendorName(server) else VendorName(local))
    ensures r.accounts.Some? && AccountName(r) == AccountName(local) && ReportedBalance(r) == ReportedBalance(server)
  {
    var vendors := if server.vendors.Some? then server.vendors else local.vendors;
    server.(vendors := vendors, accounts := Some(AccountRef(AccountName(local), ReportedBalance(server))))
  }

  /** Merging the same service copy again changes nothing. */
  lemma MergeIdempotent(local: Payment, server: Payment)
    ensures MergeConfirmed(MergeConfirmed(local, server), server) == MergeConfirmed(local, server)
  {
  }

  function ConfirmedPayment(server: Payment): Payment -> Payment {
    p => MergeConfirmed(p, server)
  }

  /** What `confirmPayment` does once its reply arrives. The cached accounts are left alone. */
  function PaymentConfirmed(s: PaymentState, id: string, reply: Reply<PaymentData>): (t: Transition)
    ensures !t.state.loading && t.state.accounts == s.accounts
    ensures t.ok <==> HasPayment(reply)
    ensures |t.state.payments| == |s.payments|
    ensures t.ok ==> forall i :: 0 <= i < |s.payments| && s.payments[i].id == id ==>
      t.state.payments[i] == MergeConfirmed(s.payments[i], reply.body.data.value.payment.value)
    ensures t.ok ==> forall i :: 0 <= i < |s.payments| && s.payments[i].id != id ==>
      t.state.payments[i] == s.payments[i]
    ensures t.ok ==>
      t.state.error == s.error &&
      t.state.lastTransactionDetails == Some(TransactionDetails(
        reply.body.data.value.previous_balance, reply.body.data.value.new_balance,
        reply.body.data.value.amount_deducted, None, None))
    ensures !t.ok ==> t.state.payments == s.payments
    ensures reply.Received? && !t.ok ==>
      t.state.error == Some(ErrorOrMessage(reply.body)) && t.state.lastTransactionDetails == FailureDetails(reply.body)
    ensures reply.Threw? ==>
      t.state.error == Some(ConfirmFailed) && t.state.lastTransactionDetails == s.lastTransactionDetails
  {
    match reply
    case Threw => Transition(s.(loading := false, error := Some(ConfirmFailed)), false)
    case Received(body) =>
      if body.success && body.data.Some? && body.data.value.payment.Some? then
        var d := body.data.value;
        Transition(s.(loading := false,
                      payments := Lists.UpdateKey(s.payments, PaymentId, id, ConfirmedPayment(d.payment.value)),
                      lastTransactionDetails := Some(TransactionDetails(d.previous_balance, d.new_balance, d.amount_deducted, None, None))),
                   true)
      else
        Transition(s.(loading := false, error := Some(ErrorOrMessage(body)), lastTransactionDetails := FailureDetails(body)), false)
  }

  /** What `deletePayment` does once its reply arrives; the payment's status is not consulted. */
  function PaymentDeleted(s: PaymentState, id: string, reply: Reply<PaymentData>): (t: Transition)
    ensures !t.state.loading && t.state.accounts == s.accounts && t.state.lastTransactionDetails == s.lastTransactionDetails
    ensures t.ok <==> Succeeded(reply)
    ensures t.ok ==> t.state.payments == Lists.RemoveKey(s.payments, PaymentId, id) && t.state.error == s.error
    ensures !t.ok ==> t.state.payments == s.payments
    ensures reply.Received? && !t.ok ==> t.state.error == Some(ErrorOrMessage(reply.body))
    ensures reply.Threw? ==> t.state.error == Some(DeleteFailed)
  {
    match reply
    case Threw => Transition(s.(loading := false, error := Some(DeleteFailed)), false)
    case Received(body) =>
      if body.success then Transition(s.(loading := false, payments := Lists.RemoveKey(s.payments, PaymentId, id)), true)
      else Transition(s.(loading := false, error := Some(ErrorOrMessage(body))), false)
  }

  /**
   * What `generateReport` does once its reply arrives. `hostReady` says
   * whether the Office and Excel globals exist, `surface` how the worksheet
   * writes ended, `localTime` and `isoTime` the two readings of the clock
   * (`toLocaleString` for the sheet, `toISOString` for the snapshot).
   */
  function ReportGenerated(s: PaymentState, reply: Reply<ReportData>, hostReady: bool, surface: SurfaceResult,
                           localTime: string, isoTime: string): (t: ReportTransition)
    ensures !t.state.loading && t.state.lastTransactionDetails == s.lastTransactionDetails
    ensures t.report.Some? <==> Delivered(reply) && hostReady
    ensures t.report.Some? ==> t.report.value == Report(reply.body.data.value.payments, reply.body.data.value.accounts, isoTime)
    ensures Delivered(reply) ==>
      t.state.payments == reply.body.data.value.payments && t.state.accounts == reply.body.data.value.accounts
    ensures !Delivered(reply) ==> t.state.payments == s.payments && t.state.accounts == s.accounts
    ensures |t.writes| > 0 <==> Delivered(reply) && hostReady
    ensures |t.writes| > 0 ==>
      t.writes == ReportGrid.Plan(reply.body.data.value.accounts, reply.body.data.value.payments, localTime)
    ensures Delivered(reply) && hostReady ==>
      t.state.error == (if surface.Rendered? then s.error else Some(ExcelFailedPrefix + surface.message))
    ensures reply.Received? && !reply.body.success ==> t.state.error == Some(reply.body.message)
    ensures (reply.Threw? || Succeeded(reply)) && !(Delivered(reply) && hostReady) ==> t.state.error == Some(ReportFailed)
  {
    match reply
    case Threw => ReportTransition(s.(loading := false, error := Some(ReportFailed)), None, [])
    case Received(body) =>
      if !body.success then ReportTransition(s.(loading := false, error := Some(body.message)), None, [])
      else match body.data
        // `data.data.payments` throws a TypeError, caught by the outer catch block
        case None => ReportTransition(s.(loading := false, error := Some(ReportFailed)), None, [])
        case Some(d) =>
          var cached := s.(loading := false, payments := d.payments, accounts := d.accounts);
          if !hostReady then
            // the cache was already replaced when the missing host throws
            ReportTransition(cached.(error := Some(ReportFailed)), None, [])
          else
            var writes := ReportGrid.Plan(d.accounts, d.payments, localTime);
            var report := Some(Report(d.payments, d.accounts, isoTime));
            match surface
            case Rendered => ReportTransition(cached, report, writes)
            case RenderFailed(message) => ReportTransition(cached.(error := Some(ExcelFailedPrefix + message)), report, writes)
  }

  /** Whatever the reply, every worksheet write issued reads back as a well-formed, non-overlapping rectangle that its values fill. */
  lemma ReportWritesWellFormed(s: PaymentState, reply: Reply<ReportData>, hostReady: bool, surface: SurfaceResult,
                               localTime: string, isoTime: string)
    ensures var w := ReportGenerated(s, reply, hostReady, surface, localTime, isoTime).writes;
      (forall i :: 0 <= i < |w| ==>
        ReportGrid.ParseRange(w[i].address).Some? && ReportGrid.Fits(ReportGrid.ParseRange(w[i].address).value, w[i].values)) &&
      (forall i, j :: 0 <= i < j < |w| ==>
        ReportGrid.Disjoint(ReportGrid.ParseRange(w[i].address).value, ReportGrid.ParseRange(w[j].address).value))
  {
    if Delivered(reply) && hostReady {
      var d := reply.body.data.value;
      ReportGrid.PlanWellFormed(d.accounts, d.payments, localTime);
    }
  }

  /** Deleting the payment a create just appended restores the cached list, when its id was new. */
  lemma DeleteUndoesCreate(s: PaymentState, vendors: seq<VendorCache.Vendor>, request: CreatePaymentRequest,
                           created: Reply<PaymentData>, deleted: Reply<PaymentData>)
    requires HasPayment(created) && Succeeded(deleted)
    requires forall i :: 0 <= i < |s.payments| ==> s.payments[i].id != created.body.data.value.payment.value.id
    ensures var c := PaymentCreated(Started(s), vendors, request, created).state;
      PaymentDeleted(Started(c), created.body.data.value.payment.value.id, deleted).state.payments == s.payments
  {
    var p := WithRelations(created.body.data.value.payment.value, request, vendors, s.accounts);
    Lists.RemoveKeyUndoesAppend(s.payments, p, PaymentId);
  }

  /** Confirming twice with the same service reply leaves the list as one confirmation left it. */
  lemma ConfirmTwiceIsOnce(s: PaymentState, id: string, reply: Reply<PaymentData>)
    requires HasPayment(reply)
    ensures var once := PaymentConfirmed(Started(s), id, reply).state;
      PaymentConfirmed(Started(once), id, reply).state.payments == once.payments
  {
    var f := ConfirmedPayment(reply.body.data.value.payment.value);
    forall x: Payment ensures f(f(x)) == f(x) {
      MergeIdempotent(x, reply.body.data.value.payment.value);
    }
    Lists.UpdateKeyTwice(s.payments, PaymentId, id, f);
  }

  /** A success reply for an id that is not cached reports success and leaves the cached list as it was. */
  lemma ConfirmUnknownId(s: PaymentState, id: string, reply: Reply<PaymentData>)
    requires HasPayment(reply)
    requires forall i :: 0 <= i < |s.payments| ==> s.payments[i].id != id
    ensures var t := PaymentConfirmed(s, id, reply);
      t.ok && t.state.payments == s.payments
  {
    Lists.UpdateKeyAbsent(s.payments, PaymentId, id, ConfirmedPayment(reply.body.data.value.payment.value));
  }

  /** The payment store: the fields `set` updates. */
  class PaymentStore {
    var payments: seq<Payment>
    var accounts: seq<Account>
    var loading: bool
    var error: Option<string>
    var lastTransactionDetails: Option<TransactionDetails>

    function State(): PaymentState
      reads this
    {
      PaymentState(payments, accounts, loading, error, lastTransactionDetails)
    }

    constructor ()
      ensures State() == PaymentState([], [], false, None, None)
    {
      payments, accounts, loading, error, lastTransactionDetails := [], [], false, None, None;
    }

    /** The synchronous start of an action. */
    method Begin()
      modifies this
      ensures State() == Started(old(State()))
    {
      loading, error := true, None;
    }

    /** The rest of `fetchPayments`, run when its reply arrives. */
    method SettleFetchPayments(reply: Reply<PaymentData>)
      modifies this
      ensures State() == PaymentsFetched(old(State()), reply)
    {
      match reply {
        case Threw =>
          error := Some(FetchPaymentsFailed);
        case Received(body) =>
          if body.success && body.data.Some? && body.data.value.payments.Some? {
            payments := body.data.value.payments.value;
          } else {
            error := Some(ErrorOrMessage(body));
          }
      }
      loading := false;
    }

    /** The rest of `fetchAccounts`, run when its reply arrives. */
    method SettleFetchAccounts(reply: Reply<AccountsData>)
      modifies this
      ensures State() == AccountsFetched(old(State()), reply)
    {
      match reply {
        case Threw =>
          error := Some(FetchAccountsFailed);
        case Received(body) =>
          if !body.success {
            error := Some(body.message);
          } else {
            match body.data {
              case Some(d) => accounts := d.accounts;
              case None => error := Some(FetchAccountsFailed);
            }
          }
      }
      loading := false;
    }

    method FetchPayments(reply: Reply<PaymentData>)
      modifies this
      ensures State() == PaymentsFetched(Started(old(State())), reply)
    {
      Begin();
      SettleFetchPayments(reply);
    }

    method FetchAccounts(reply: Reply<AccountsData>)
      modifies this
      ensures State() == AccountsFetched(Started(old(State())), reply)
    {
      Begin();
      SettleFetchAccounts(reply);
    }

    /** `createPayment`: the vendor names come from the vendor store's cache as it is when the reply arrives. */
    method CreatePayment(vendorStore: VendorCache.VendorStore, request: CreatePaymentRequest, reply: Reply<PaymentData>)
      returns (ok: bool)
      modifies this
      ensures Transition(State(), ok) == PaymentCreated(Started(old(State())), vendorStore.vendors, request, reply)
    {
      loading, error := true, None;
      ok := false;
      match reply {
        case Threw =>
          error := Some(CreateFailed);
        case Received(body) =>
          if body.success && body.data.Some? && body.data.value.payment.Some? {
            var created := WithRelations(body.data.value.payment.value, request, vendorStore.vendors, accounts);
            payments := payments + [created];
            ok := true;
          } else {
            error := Some(ErrorOrMessage(body));
            lastTransactionDetails := FailureDetails(body);
          }
      }
      loading := false;
    }

    method ConfirmPayment(id: string, reply: Reply<PaymentData>) returns (ok: bool)
      modifies this
      ensures Transition(State(), ok) == PaymentConfirmed(Started(old(State())), id, reply)
    {
      loading, error := true, None;
      ok := false;
      match reply {
        case Threw =>
          error := Some(ConfirmFailed);
        case Received(body) =>
          if body.success && body.data.Some? && body.data.value.payment.Some? {
            var d := body.data.value;
            payments := Lists.UpdateKey(payments, PaymentId, id, ConfirmedPayment(d.payment.value));
            lastTransactionDetails := Some(TransactionDetails(d.previous_balance, d.new_balance, d.amount_deducted, None, None));
            ok := true;
          } else {
            error := Some(ErrorOrMessage(body));
            lastTransactionDetails := FailureDetails(body);
          }
      }
      loading := false;
    }

    method DeletePayment(id: string, reply: Reply<PaymentData>) returns (ok: bool)
      modifies this
      ensures Transition(State(), ok) == PaymentDeleted(Started(old(State())), id, reply)
    {
      loading, error := true, None;
      ok := false;
      match reply {
        case Threw =>
          error := Some(DeleteFailed);
        case Received(body) =>
          if body.success {
            payments := Lists.RemoveKey(payments, PaymentId, id);
            ok := true;
          } else {
            error := Some(ErrorOrMessage(body));
          }
      }
      loading := false;
    }

    /** `generateReport`; `writes` are the worksheet writes issued, in order. */
    method GenerateReport(reply: Reply<ReportData>, hostReady: bool, surface: SurfaceResult, localTime: string, isoTime: string)
      returns (report: Option<Report>, writes: seq<ReportGrid.Write>)
      modifies this
      ensures ReportTransition(State(), report, writes) ==
        ReportGenerated(Started(old(State())), reply, hostReady, surface, localTime, isoTime)
    {
      loading, error := true, None;
      report, writes := None, [];
      match reply {
        case Threw =>
          error := Some(ReportFailed);
        case Received(body) =>
          if !body.success {
            error := Some(body.message);
          } else {
            match body.data {
              case None =>
                error := Some(ReportFailed);
              case Some(d) =>
                payments, accounts := d.payments, d.accounts;
                if !hostReady {
                  error := Some(ReportFailed);
                } else {
                  writes := ReportGrid.Plan(d.accounts, d.payments, localTime);
                  if surface.RenderFailed? {
                    error := Some(ExcelFailedPrefix + surface.message);
                  }
                  report := Some(Report(d.payments, d.accounts, isoTime));
                }
            }
          }
      }
      loading := false;
    }
  }
}

/**
 * The payment schedule screen: how a cached payment is displayed, the two
 * buttons that gate the payment's life cycle (Confirm for pending rows,
 * Schedule for a complete form), and the handlers that run the store
 * actions and then update the screen's own state.
 */
module PaymentScreen {
  import opened Common
  import opened Service
  import opened Ledger
  import Decimal
  import VendorCache
  import PaymentCache

  /** `amount.toFixed(2)` behind a dollar sign, for the whole-number amounts of the model below 10^21. */
  function Money(amount: int): (s: string)
    ensures |s| >= 5 && s[0] == '$' && s[|s| - 3..] == ".00"
  {
    "$" + Decimal.IntToString(amount) + ".00"
  }

  /** Reads a `Money` string back. */
  function ParseMoney(s: string): Option<int> {
    if |s| >= 4 && s[0] == '$' && s[|s| - 3..] == ".00" then Decimal.ParseInt(s[1..|s| - 3]) else None
  }

  /** Every displayed amount reads back as the amount. */
  lemma MoneyRoundTrip(amount: int)
    ensures ParseMoney(Money(amount)) == Some(amount)
  {
    var s := Money(amount);
    assert s[1..|s| - 3] == Decimal.IntToString(amount);
    Decimal.IntToStringRoundTrip(amount);
  }

  /** The two lines of a payment row and the status the row shows. */
  datatype Display = Display(primary: string, secondary: string, status: string)

  /**
   * `formatPaymentDisplay`: every missing or empty field falls back to a
   * fixed text, and the two lines are composed from the labels.
   */
  function FormatPaymentDisplay(p: Payment): (d: Display)
    ensures var vendorLabel := if VendorName(p).Some? && VendorName(p).value != "" then VendorName(p).value else "Unknown Vendor";
      var accountLabel := if AccountName(p).Some? && AccountName(p).value != "" then AccountName(p).value else "Unknown Account";
      var date := if p.payment_date != "" then p.payment_date else "No date";
      var status := if p.status != "" then p.status else "pending";
      d.primary == vendorLabel + " - " + Money(p.amount) &&
      d.secondary == "Date: " + date + " | Status: " + status + " | Account: " + accountLabel &&
      d.status == status
  {
    var vendorName := NameOr(VendorName(p), "Unknown Vendor");
    var accountName := NameOr(AccountName(p), "Unknown Account");
    var date := OrElse(p.payment_date, "No date");
    var status := OrElse(p.status, "pending");
    Display(vendorName + " - " + Money(p.amount),
            "Date: " + date + " | Status: " + status + " | Account: " + accountName,
            status)
  }

  /** The row of a freshly created payment shows the names the create joined in, and its amount. */
  lemma CreatedDisplay(payment: Payment, request: CreatePaymentRequest, vendors: seq<VendorCache.Vendor>, accounts: seq<Account>)
    ensures var r := PaymentCache.WithRelations(payment, request, vendors, accounts);
      FormatPaymentDisplay(r).primary == VendorName(r).value + " - " + Money(payment.amount)
  {
  }

  /**
   * The Confirm button is rendered only when the displayed status is exactly
   * "pending": for a pending payment and for one with no status, and for
   * nothing else.
   */
  predicate ConfirmOffered(p: Payment): (offered: bool)
    ensures offered <==> p.status == "pending" || p.status == ""
  {
    FormatPaymentDisplay(p).status == "pending"
  }

  /**
   * In terms of the typed status: Confirm is offered exactly when the status
   * reads as `Pending` or is empty, so never for a completed or cancelled one.
   */
  lemma ConfirmGate(p: Payment)
    ensures ConfirmOffered(p) <==> StatusOf(p.status) == Some(Pending) || p.status == ""
    ensures StatusOf(p.status) == Some(Completed) || StatusOf(p.status) == Some(Cancelled) ==> !ConfirmOffered(p)
  {
  }

  /** The create form as the screen holds it. */
  datatype PaymentForm = PaymentForm(vendor_id: string, account_id: string, amount: Number, payment_date: string)

  /** The form after mount and after a successful create: ids empty, amount 0, today's date. */
  function BlankForm(today: string): (f: PaymentForm)
    ensures f.vendor_id == "" && f.account_id == "" && f.amount == Num(0) && f.payment_date == today
  {
    PaymentForm("", "", Num(0), today)
  }

  /** The request `handleAddPayment` sends: the form's four fields, unchecked and unconverted. */
  function Request(f: PaymentForm): (r: CreatePaymentRequest)
    ensures r.vendor_id == f.vendor_id && r.account_id == f.account_id
    ensures r.amount == f.amount && r.payment_date == f.payment_date
  {
    CreatePaymentRequest(f.vendor_id, f.account_id, f.amount, f.payment_date)
  }

  /** `!amount` in JavaScript: 0 and NaN are falsy, every other number is truthy. */
  predicate Falsy(n: Number): (falsy: bool)
    ensures falsy <==> !(n.Num? && n.value != 0)
  {
    n == Num(0) || n == NaN
  }

  /**
   * The `disabled` expression of the Schedule button: it is enabled exactly
   * for a form with both ids, a date and a non-zero number.
   */
  predicate ScheduleDisabled(f: PaymentForm): (disabled: bool)
    ensures !disabled <==>
      f.vendor_id != "" && f.account_id != "" && f.payment_date != "" && f.amount.Num? && f.amount.value != 0
  {
    f.vendor_id == "" || f.account_id == "" || Falsy(f.amount) || f.payment_date == ""
  }

  /** A negative amount is not refused locally: any amount `-n` gates like `n`. */
  lemma ScheduleGate(f: PaymentForm, n: int)
    ensures !ScheduleDisabled(f.(amount := Num(-n))) <==> !ScheduleDisabled(f.(amount := Num(n)))
  {
  }

  /** The blank form keeps Schedule disabled, whatever today's date. */
  lemma BlankFormDisabled(today: string)
    ensures ScheduleDisabled(BlankForm(today))
  {
  }

  /** The screen's own state: the dialog flag and the form, plus the two stores it drives. */
  class PaymentSchedule {
    var openDialog: bool
    var newPayment: PaymentForm
    const store: PaymentCache.PaymentStore
    const vendorStore: VendorCache.VendorStore

    constructor (today: string, store: PaymentCache.PaymentStore, vendorStore: VendorCache.VendorStore)
      ensures !openDialog && newPayment == BlankForm(today)
      ensures this.store == store && this.vendorStore == vendorStore
    {
      openDialog := false;
      newPayment := BlankForm(today);
      this.store := store;
      this.vendorStore := vendorStore;
    }

    /** "Schedule New Payment". */
    method OpenDialog()
      modifies this
      ensures openDialog && newPayment == old(newPayment)
    {
      openDialog := true;
    }

    /** The overlay and the Cancel button: the form is kept as it is. */
    method CloseDialog()
      modifies this
      ensures !openDialog && newPayment == old(newPayment)
    {
      openDialog := false;
    }

    method SelectVendor(id: string)
      modifies this
      ensures newPayment == old(newPayment).(vendor_id := id) && openDialog == old(openDialog)
    {
      newPayment := newPayment.(vendor_id := id);
    }

    method SelectAccount(id: string)
      modifies this
      ensures newPayment == old(newPayment).(account_id := id) && openDialog == old(openDialog)
    {
      newPayment := newPayment.(account_id := id);
    }

    /** The amount field, as `parseFloat` reads it. */
    method EnterAmount(amount: Number)
      modifies this
      ensures newPayment == old(newPayment).(amount := amount) && openDialog == old(openDialog)
    {
      newPayment := newPayment.(amount := amount);
    }

    method EnterDate(date: string)
      modifies this
      ensures newPayment == old(newPayment).(payment_date := date) && openDialog == old(openDialog)
    {
      newPayment := newPayment.(payment_date := date);
    }

    /**
     * Payments, accounts and vendors fetched together: all three are started
     * before any settles, and the model settles them in the order started.
     */
    method RefreshAll(payments: Reply<PaymentData>, accounts: Reply<AccountsData>, vendors: Reply<VendorCache.VendorsData>)
      modifies store, vendorStore
      ensures store.State() ==
        PaymentCache.AccountsFetched(PaymentCache.PaymentsFetched(PaymentCache.Started(PaymentCache.Started(old(store.State()))), payments), accounts)
      ensures vendorStore.State() == VendorCache.VendorsFetched(VendorCache.Started(old(vendorStore.State())), vendors)
    {
      store.Begin();
      store.Begin();
      vendorStore.Begin();
      store.SettleFetchPayments(payments);
      store.SettleFetchAccounts(accounts);
      vendorStore.SettleFetch(vendors);
    }

    /** Payments and accounts fetched together, both started before either settles. */
    method RefreshLedger(payments: Reply<PaymentData>, accounts: Reply<AccountsData>)
      modifies store
      ensures store.State() ==
        PaymentCache.AccountsFetched(PaymentCache.PaymentsFetched(PaymentCache.Started(PaymentCache.Started(old(store.State()))), payments), accounts)
    {
      store.Begin();
      store.Begin();
      store.SettleFetchPayments(payments);
      store.SettleFetchAccounts(accounts);
    }

    /** The mount effect: the three fetches are started one after another and not awaited. */
    method Mount(payments: Reply<PaymentData>, accounts: Reply<AccountsData>, vendors: Reply<VendorCache.VendorsData>)
      modifies store, vendorStore
      ensures store.State() ==
        PaymentCache.AccountsFetched(PaymentCache.PaymentsFetched(PaymentCache.Started(PaymentCache.Started(old(store.State()))), payments), accounts)
      ensures vendorStore.State() == VendorCache.VendorsFetched(VendorCache.Started(old(vendorStore.State())), vendors)
    {
      RefreshAll(payments, accounts, vendors);
    }

    /**
     * `handleAddPayment`. On success the three caches are refetched (started
     * together, settled in order), the dialog closes and the form is reset to
     * a blank form dated `today`; on failure the dialog and the form stay as
     * they were and nothing is refetched.
     */
    method HandleAddPayment(today: string, created: Reply<PaymentData>, payments: Reply<PaymentData>,
                            accounts: Reply<AccountsData>, vendors: Reply<VendorCache.VendorsData>)
      returns (success: bool)
      modifies this, store, vendorStore
      ensures var t := PaymentCache.PaymentCreated(PaymentCache.Started(old(store.State())), old(vendorStore.vendors),
                                                   Request(old(newPayment)), created);
        success == t.ok &&
        (success ==>
          store.State() == PaymentCache.AccountsFetched(
            PaymentCache.PaymentsFetched(PaymentCache.Started(PaymentCache.Started(t.state)), payments), accounts) &&
          vendorStore.State() == VendorCache.VendorsFetched(VendorCache.Started(old(vendorStore.State())), vendors) &&
          !openDialog && newPayment == BlankForm(today)) &&
        (!success ==>
          store.State() == t.state && vendorStore.State() == old(vendorStore.State()) &&
          openDialog == old(openDialog) && newPayment == old(newPayment))
    {
      success := store.CreatePayment(vendorStore, Request(newPayment), created);
      if success {
        RefreshAll(payments, accounts, vendors);
        openDialog := false;
        newPayment := BlankForm(today);
      }
    }

    /** `handleConfirmPayment`: payments and accounts are refetched only after a successful confirm. */
    method HandleConfirmPayment(id: string, confirmed: Reply<PaymentData>, payments: Reply<PaymentData>, accounts: Reply<AccountsData>)
      returns (success: bool)
      modifies store
      ensures var t := PaymentCache.PaymentConfirmed(PaymentCache.Started(old(store.State())), id, confirmed);
        success == t.ok &&
        (success ==> store.State() == PaymentCache.AccountsFetched(
          PaymentCache.PaymentsFetched(PaymentCache.Started(PaymentCache.Started(t.state)), payments), accounts)) &&
        (!success ==> store.State() == t.state)
    {
      success := store.ConfirmPayment(id, confirmed);
      if success {
        RefreshLedger(payments, accounts);
      }
    }
  }

  /**
   * The error the screen shows after a refresh: none when both fetches
   * deliver, and the payments fetch's error when only that one fails; the
   * later accounts fetch does not clear it, because both were started before
   * either settled.
   */
  lemma RefreshError(s: PaymentCache.PaymentState, payments: Reply<PaymentData>, accounts: Reply<AccountsData>)
    requires Delivered(accounts)
    ensures var r := PaymentCache.AccountsFetched(PaymentCache.PaymentsFetched(PaymentCache.Started(PaymentCache.Started(s)), payments), accounts);
      r.accounts == accounts.body.data.value.accounts &&
      (Delivered(payments) && payments.body.data.value.payments.Some? ==> r.error.None? && r.payments == payments.body.data.value.payments.value) &&
      (payments.Threw? ==> r.error == Some(PaymentCache.FetchPaymentsFailed) && r.payments == s.payments)
  {
  }
}

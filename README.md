# Ledger cache of the Excel payments add-in, in Dafny

This project models the client-side core of an Excel task-pane add-in that
schedules vendor payments against accounts held by a ledger service. The
core has three parts.

- **The payment store** (`paymentStore.ts`). It caches `payments` and
  `accounts` and holds three single-slot fields: `loading`, `error` and
  `lastTransactionDetails`. Its actions are fetch, create, confirm, delete
  and report generation. It also writes a report onto the active worksheet.
- **The vendor store** (`vendorStore.ts`). It is the same kind of cache for
  `vendors`: fetch, create, update and delete.
- **The payment schedule screen** (`PaymentSchedule.tsx`). It holds the
  display projection of a payment, the Confirm and Schedule gates, and the
  handlers that run store actions and then update the dialog and form
  state.

How each action is modelled:

- Every store action is split into two parts. `Started` is the synchronous
  `set({ loading: true, error: null })`. A pure function (`PaymentsFetched`,
  `PaymentCreated`, `VendorUpdated`, …) is everything after the awaited
  reply, including the `finally` block.
- The store classes (`PaymentStore`, `VendorStore`) hold the same fields the
  source's `set` calls update. Their methods update those fields step by
  step. Each method is proved equal to `Started` followed by its pure
  function.
- The service reply is an input value: a parsed body, or `Threw` for an
  exception. In fetchVendors, createVendor, fetchAccounts and generateReport
  a success body without `data` goes to the catch branch, as the source's
  `data.data.<field>` dereference does. fetchPayments, createPayment and
  confirmPayment read `data.data?.<field>` and take their failure branch
  instead; updateVendor, deleteVendor and deletePayment never read `data`.

The worksheet layout of the report is a list of writes. Each write is an
A1-style address and the value matrix assigned to it. The addresses are
parsed back into rectangles. This is how it is proved that every write fits
its rectangle and that no two rectangles overlap, for any number of
accounts and payments, including none.

## Model

| member | source | states |
|---|---|---|
| Common.OrElse | src/taskpane/components/payment/PaymentSchedule.tsx:255-256 | JavaScript's `or` of a string and a fallback: a non-empty string is kept, and the empty string gives the fallback |
| Common.NameOr | src/taskpane/store/paymentStore.ts:165-167 | an optional joined name or a fallback: gives the fallback when the joined name is missing or empty, and otherwise the name |
| Service.ErrorOrMessage | src/taskpane/store/paymentStore.ts:112 | the `error` field or else the `message`: a non-empty `error` wins, and otherwise the message is used |
| Ledger.StatusOf | src/taskpane/store/paymentStore.ts:10 | a recognised wire string names the status whose wire name it is |
| Ledger.StatusRoundTrip | src/taskpane/store/paymentStore.ts:10 | each of the three statuses reads back from its wire name |
| Decimal.NatToString | src/taskpane/store/paymentStore.ts:325 | the decimal row number concatenated into an address is non-empty, all digits, and has no leading zero |
| Decimal.ParseNat | src/taskpane/store/paymentStore.ts:325 | a string parses as a number exactly when it is non-empty and all digits |
| Decimal.DigitsValueOfNatToString | src/taskpane/store/paymentStore.ts:353 | the digits of a row number denote that number (proof by induction) |
| Decimal.ParseNatToString | src/taskpane/store/paymentStore.ts:353 | a printed row number parses back to itself |
| Decimal.IntToString | src/taskpane/components/payment/PaymentSchedule.tsx:254 | a printed integer starts with '-' exactly when it is negative |
| Decimal.IntToStringRoundTrip | src/taskpane/components/payment/PaymentSchedule.tsx:254 | a printed integer parses back to itself |
| Lists.FindKey | src/taskpane/store/paymentStore.ts:160-161 | `find` by id: None exactly when no element has the key; otherwise the first index with the key |
| Lists.UpdateKey | src/taskpane/store/paymentStore.ts:207-216 | `map` with an id test: the length is kept, every matching element is transformed, and every other element is kept in place |
| Lists.RemoveKey | src/taskpane/store/paymentStore.ts:254 | `filter` on id: no survivor has the key, and every element without the key survives |
| Lists.RemoveKeyConcat | src/taskpane/store/paymentStore.ts:254 | filtering a concatenation filters each part and keeps their order (proof by induction) |
| Lists.RemoveKeyAbsent | src/taskpane/store/paymentStore.ts:254 | filtering a key that no element has returns the list unchanged (proof by induction) |
| Lists.RemoveKeyIdempotent | src/taskpane/store/paymentStore.ts:254 | filtering twice is filtering once |
| Lists.RemoveKeyUndoesAppend | src/taskpane/store/paymentStore.ts:173 | removing the key of an appended fresh element restores the list |
| Lists.UpdateKeyAbsent | src/taskpane/store/vendorStore.ts:94-96 | mapping with an id no element has changes nothing |
| Lists.UpdateKeyTwice | src/taskpane/store/vendorStore.ts:94-96 | mapping twice with an idempotent update is mapping once |
| VendorCache.Patched | src/taskpane/store/vendorStore.ts:95 | `{ ...vendor, ...data }`: for each of the six fields (`id`, `name`, `payment_schedule`, `is_active`, `created_at`, `updated_at`) the patch's value wins when present, and the vendor's is kept when absent |
| VendorCache.PatchedLaws | src/taskpane/store/vendorStore.ts:95 | an empty patch is the identity, and applying a patch twice is applying it once |
| VendorCache.Started | src/taskpane/store/vendorStore.ts:32 | each action starts with `loading` set and `error` cleared, and the list untouched |
| VendorCache.VendorsFetched | src/taskpane/store/vendorStore.ts:40-49 | success with a payload replaces the list wholesale; `!success` sets the message; a throw or a missing payload sets "Failed to fetch vendors"; every failure keeps the list; `loading` ends false |
| VendorCache.VendorCreated | src/taskpane/store/vendorStore.ts:65-76 | returns true exactly on success with a payload, and then appends exactly the server's vendor after the unchanged earlier ones; a failure returns false, keeps the list and sets the message or "Failed to create vendor" |
| VendorCache.VendorUpdated | src/taskpane/store/vendorStore.ts:92-107 | returns true exactly on success; the length and order are kept; every vendor with the id gets the patch merged in, and every other vendor is unchanged; a failure keeps the list and sets the message or "Failed to update vendor" |
| VendorCache.VendorDeleted | src/taskpane/store/vendorStore.ts:121-134 | returns true exactly on success, and then filters out the id; a failure keeps the list and sets the message or "Failed to delete vendor" |
| VendorCache.DeleteRemovesAll | src/taskpane/store/vendorStore.ts:123 | after a successful delete no vendor has the id, and every other vendor remains |
| VendorCache.DeleteUndoesCreate | src/taskpane/store/vendorStore.ts:65-125 | deleting the vendor just created with a fresh id restores the list |
| VendorCache.UpdateTwiceIsOnce | src/taskpane/store/vendorStore.ts:94-96 | repeating a successful update leaves the list as one update left it |
| VendorCache.UpdateUnknownId | src/taskpane/store/vendorStore.ts:92-98 | an update of an id that is not cached still returns true and changes nothing |
| VendorCache.VendorStore.constructor | src/taskpane/store/vendorStore.ts:26-28 | the store starts with no vendors, not loading and no error |
| VendorCache.VendorStore.Begin | src/taskpane/store/vendorStore.ts:32 | the store's fields become `Started` of the old state |
| VendorCache.VendorStore.SettleFetch | src/taskpane/store/vendorStore.ts:39-49 | the fields become `VendorsFetched` of the old state |
| VendorCache.VendorStore.FetchVendors | src/taskpane/store/vendorStore.ts:30-50 | the whole action: `VendorsFetched` after `Started` |
| VendorCache.VendorStore.CreateVendor | src/taskpane/store/vendorStore.ts:52-77 | the returned flag and the new fields are those of `VendorCreated` after `Started` |
| VendorCache.VendorStore.UpdateVendor | src/taskpane/store/vendorStore.ts:79-108 | the returned flag and the new fields are those of `VendorUpdated` after `Started` |
| VendorCache.VendorStore.DeleteVendor | src/taskpane/store/vendorStore.ts:110-135 | the returned flag and the new fields are those of `VendorDeleted` after `Started` |
| PaymentCache.Started | src/taskpane/store/paymentStore.ts:101 | each action starts with `loading` set and `error` cleared; the caches and the details are untouched |
| PaymentCache.PaymentsFetched | src/taskpane/store/paymentStore.ts:108-118 | success with `data.payments` replaces the list wholesale; otherwise the list is kept and `error` is the body's error or else its message, or "Failed to fetch payments" on a throw; accounts and details are untouched |
| PaymentCache.AccountsFetched | src/taskpane/store/paymentStore.ts:130-140 | success with a payload replaces the accounts; `!success` sets the message alone; a throw or a missing payload sets "Failed to fetch accounts"; every failure keeps the accounts |
| PaymentCache.JoinedVendorName | src/taskpane/store/paymentStore.ts:160-165 | "Unknown Vendor" when no cached vendor has the requested id |
| PaymentCache.JoinedVendorNameOfFirst | src/taskpane/store/paymentStore.ts:160-165 | when a cached vendor has the id, the joined name is the first such vendor's name, or "Unknown Vendor" if that name is empty |
| PaymentCache.JoinedAccount | src/taskpane/store/paymentStore.ts:161-169 | "Unknown Account" and no balance when no cached account has the requested id |
| PaymentCache.JoinedAccountOfFirst | src/taskpane/store/paymentStore.ts:161-169 | when a cached account has the id, the joined name is the first such account's name (or "Unknown Account" if empty) and the balance is its balance |
| PaymentCache.HasPayment | src/taskpane/store/paymentStore.ts:156 | `data.success && data.data?.payment`: it holds exactly when the reply is a success body carrying a payment |
| PaymentCache.WithRelations | src/taskpane/store/paymentStore.ts:163-170 | the appended record is the server's payment with only the two joined fields replaced, by the joined vendor name and the joined account |
| PaymentCache.FailureDetails | src/taskpane/store/paymentStore.ts:179-182 | after a failed create or confirm, the details hold exactly `current_balance` and `payment_amount` when the body has `data`, and are null otherwise |
| PaymentCache.PaymentCreated | src/taskpane/store/paymentStore.ts:155-190 | returns true exactly on success with a payment, and then appends exactly one joined record after the unchanged list; on failure the list is kept, `error` is the body's error or else its message, and the details are overwritten; a throw sets "Failed to create payment" and leaves the details; accounts are untouched |
| PaymentCache.MergeConfirmed | src/taskpane/store/paymentStore.ts:208-214 | the confirmed entry takes every field of the server's copy; its vendor name comes from the server when sent, else stays local; it keeps the local account name and takes the server's balance |
| PaymentCache.MergeIdempotent | src/taskpane/store/paymentStore.ts:208-214 | merging the same server copy twice is merging it once |
| PaymentCache.PaymentConfirmed | src/taskpane/store/paymentStore.ts:203-238 | returns true exactly on success with a payment; the length and order are kept; only entries with the id are merged; the details become exactly the server's previous balance, new balance and deducted amount; on failure the list is kept and the details overwritten as for create; a throw sets "Failed to confirm payment"; accounts are untouched |
| PaymentCache.PaymentDeleted | src/taskpane/store/paymentStore.ts:251-265 | returns true exactly on success, and then filters out the id with no status check; on failure the list is kept and the error set, or "Failed to delete payment" on a throw |
| PaymentCache.ReportGenerated | src/taskpane/store/paymentStore.ts:278-410 | success with a payload replaces both caches before the host check. The snapshot is returned exactly when the payload arrived and the host is present, and it carries the payload and the ISO time. The worksheet writes are exactly the plan, and only then. A failed write sets "Failed to generate Excel report: " + message and the snapshot is still returned. A missing host, a throw or a missing payload gives "Failed to generate report"; `!success` gives the message; both give null. |
| PaymentCache.ReportWritesWellFormed | src/taskpane/store/paymentStore.ts:310-383 | whatever the reply, every write the report issues parses, fits its rectangle, and overlaps no other |
| PaymentCache.DeleteUndoesCreate | src/taskpane/store/paymentStore.ts:172-256 | deleting the payment just created with a fresh id restores the list |
| PaymentCache.ConfirmTwiceIsOnce | src/taskpane/store/paymentStore.ts:206-216 | confirming twice with the same server reply leaves the list as one confirmation left it |
| PaymentCache.ConfirmUnknownId | src/taskpane/store/paymentStore.ts:204-223 | a successful confirm of an id that is not cached returns true and leaves the list unchanged |
| PaymentCache.PaymentStore.constructor | src/taskpane/store/paymentStore.ts:93-97 | the store starts with no payments, no accounts, not loading, no error and no transaction details |
| PaymentCache.PaymentStore.Begin | src/taskpane/store/paymentStore.ts:101 | the store's fields become `Started` of the old state |
| PaymentCache.PaymentStore.SettleFetchPayments | src/taskpane/store/paymentStore.ts:108-118 | the fields become `PaymentsFetched` of the old state |
| PaymentCache.PaymentStore.SettleFetchAccounts | src/taskpane/store/paymentStore.ts:130-140 | the fields become `AccountsFetched` of the old state |
| PaymentCache.PaymentStore.FetchPayments | src/taskpane/store/paymentStore.ts:99-119 | the whole action: `PaymentsFetched` after `Started` |
| PaymentCache.PaymentStore.FetchAccounts | src/taskpane/store/paymentStore.ts:121-141 | the whole action: `AccountsFetched` after `Started` |
| PaymentCache.PaymentStore.CreatePayment | src/taskpane/store/paymentStore.ts:143-191 | the flag and the new fields are those of `PaymentCreated` after `Started`, joined against the vendor store's current vendors |
| PaymentCache.PaymentStore.ConfirmPayment | src/taskpane/store/paymentStore.ts:193-239 | the flag and the new fields are those of `PaymentConfirmed` after `Started` |
| PaymentCache.PaymentStore.DeletePayment | src/taskpane/store/paymentStore.ts:241-266 | the flag and the new fields are those of `PaymentDeleted` after `Started` |
| PaymentCache.PaymentStore.GenerateReport | src/taskpane/store/paymentStore.ts:268-411 | the returned snapshot, the writes issued and the new fields are those of `ReportGenerated` after `Started` |
| ReportGrid.ColumnOf | src/taskpane/store/paymentStore.ts:325 | a column letter names a column from 1 to 26 |
| ReportGrid.ParseCell | src/taskpane/store/paymentStore.ts:312 | a parsed cell has a row of at least 1 and a column in A..Z |
| ReportGrid.ParseRange | src/taskpane/store/paymentStore.ts:325 | a parsed range has its top-left corner above and left of its bottom-right corner |
| ReportGrid.ParseCellOf | src/taskpane/store/paymentStore.ts:348 | a cell address reads back as its cell |
| ReportGrid.NoColonInCell | src/taskpane/store/paymentStore.ts:348 | a cell address contains no colon |
| ReportGrid.ParseRangeOfCell | src/taskpane/store/paymentStore.ts:348 | a cell address reads back as a one-cell range |
| ReportGrid.ColonAfterCell | src/taskpane/store/paymentStore.ts:353 | the first colon of "cell:rest" is the one after the cell |
| ReportGrid.ParseRangeOfPair | src/taskpane/store/paymentStore.ts:353 | "topleft:bottomright" reads back as the rectangle between the two cells |
| ReportGrid.AccountsTable | src/taskpane/store/paymentStore.ts:326-332 | the accounts matrix has a header row plus one row per account, each of two cells |
| ReportGrid.AccountRowNames | src/taskpane/store/paymentStore.ts:326-332 | the accounts matrix is the header "Account Name", "Balance", then each account's name and balance, in order |
| ReportGrid.PaymentRow | src/taskpane/store/paymentStore.ts:356-362 | a payment row has five cells: the joined vendor name and account name, each "Unknown" when missing or empty, then the amount, the date and the status |
| ReportGrid.PaymentsTable | src/taskpane/store/paymentStore.ts:354-363 | the payments matrix has a header row plus one row per payment, each of five cells |
| ReportGrid.AddressRoundTrip | src/taskpane/store/paymentStore.ts:312-377 | the name of every rectangle in columns A..Z reads back as that rectangle |
| ReportGrid.Layout | src/taskpane/store/paymentStore.ts:312-377 | six rectangles, all within columns A..Z and starting at row 1 or below |
| ReportGrid.Contents | src/taskpane/store/paymentStore.ts:312-378 | the values written into each of the six rectangles fit that rectangle of the layout exactly |
| ReportGrid.Plan | src/taskpane/store/paymentStore.ts:312-378 | exactly six writes |
| ReportGrid.LiteralAddresses | src/taskpane/store/paymentStore.ts:312-378 | the one-cell rectangles at rows 1, 2 and 3 of column A are named "A1", "A2" and "A3" |
| ReportGrid.AccountsTableAddress | src/taskpane/store/paymentStore.ts:325 | the rectangle of rows 4 to N+4 and columns A and B is named `"A4:B" + (N + 4)` |
| ReportGrid.HeaderAddress | src/taskpane/store/paymentStore.ts:348 | the payments header's name is `` `A${row}` `` |
| ReportGrid.FiveColumnAddress | src/taskpane/store/paymentStore.ts:353 | the payments table's name is `` `A${top}:E${bottom}` `` |
| ReportGrid.PlanAddressStrings | src/taskpane/store/paymentStore.ts:312-377 | the six writes go, in source order, to "A1", "A3", `"A4:B" + (N+4)`, `A${N+6}`, `A${N+7}:E${N+7+M}` and "A2" |
| ReportGrid.PlanAddresses | src/taskpane/store/paymentStore.ts:312-377 | each of the six addresses reads back as its intended rectangle |
| ReportGrid.PlanShapes | src/taskpane/store/paymentStore.ts:313-378 | every value matrix has its rectangle's shape: N+1 rows of 2, M+1 rows of 5, and single cells elsewhere |
| ReportGrid.LayoutSeparated | src/taskpane/store/paymentStore.ts:345-353 | no two rectangles share a cell; row N+5 is blank; the payments header is two rows below the accounts table's end |
| ReportGrid.PlanWellFormed | src/taskpane/store/paymentStore.ts:312-378 | for any N and M, including 0, every address parses, every matrix fits its parsed rectangle, and no two parsed rectangles overlap |
| ReportGrid.PaymentRowNames | src/taskpane/store/paymentStore.ts:354-363 | the payments matrix is the fixed header followed by `PaymentRow` of each payment, in order |
| PaymentScreen.Money | src/taskpane/components/payment/PaymentSchedule.tsx:254 | an amount is shown as "$", the number, then ".00" |
| PaymentScreen.MoneyRoundTrip | src/taskpane/components/payment/PaymentSchedule.tsx:254 | a shown amount reads back as the amount |
| PaymentScreen.FormatPaymentDisplay | src/taskpane/components/payment/PaymentSchedule.tsx:251-262 | the primary line is the vendor name or "Unknown Vendor", " - ", and the amount; the secondary line gives the date, the status and the account, separated by vertical bars, with "No date", "pending" and "Unknown Account" as fallbacks; the status shown is the status or "pending" |
| PaymentScreen.CreatedDisplay | src/taskpane/components/payment/PaymentSchedule.tsx:252-259 | a freshly created payment's row shows the name the create joined in and its amount |
| PaymentScreen.ConfirmOffered | src/taskpane/components/payment/PaymentSchedule.tsx:307-314 | Confirm is rendered exactly for a status of "pending" or an empty status (the display falls back to "pending") |
| PaymentScreen.ConfirmGate | src/taskpane/components/payment/PaymentSchedule.tsx:307-314 | Confirm is offered exactly when the status reads as `Pending` or is empty, and never for a completed or cancelled payment |
| PaymentScreen.BlankForm | src/taskpane/components/payment/PaymentSchedule.tsx:187-192 | the blank form has empty ids, amount 0 and today's date |
| PaymentScreen.Request | src/taskpane/components/payment/PaymentSchedule.tsx:213-218 | the create request carries the form's four fields unchanged: no local check or conversion of the amount |
| PaymentScreen.Falsy | src/taskpane/components/payment/PaymentSchedule.tsx:394 | `!amount`: 0 and NaN are falsy, and every other number, negative ones included, is truthy |
| PaymentScreen.ScheduleDisabled | src/taskpane/components/payment/PaymentSchedule.tsx:394 | Schedule is enabled exactly when both ids and the date are non-empty and the amount is a non-zero number |
| PaymentScreen.ScheduleGate | src/taskpane/components/payment/PaymentSchedule.tsx:394 | for every n, the amount -n gates exactly like n: a negative amount is not refused locally |
| PaymentScreen.BlankFormDisabled | src/taskpane/components/payment/PaymentSchedule.tsx:394 | the blank form keeps Schedule disabled |
| PaymentScreen.PaymentSchedule.constructor | src/taskpane/components/payment/PaymentSchedule.tsx:186-192 | the dialog starts closed, with a blank form |
| PaymentScreen.PaymentSchedule.OpenDialog | src/taskpane/components/payment/PaymentSchedule.tsx:274 | opens the dialog and keeps the form |
| PaymentScreen.PaymentSchedule.CloseDialog | src/taskpane/components/payment/PaymentSchedule.tsx:388 | closes the dialog and keeps the form |
| PaymentScreen.PaymentSchedule.SelectVendor | src/taskpane/components/payment/PaymentSchedule.tsx:337 | sets only the vendor id |
| PaymentScreen.PaymentSchedule.SelectAccount | src/taskpane/components/payment/PaymentSchedule.tsx:354 | sets only the account id |
| PaymentScreen.PaymentSchedule.EnterAmount | src/taskpane/components/payment/PaymentSchedule.tsx:372 | sets only the amount |
| PaymentScreen.PaymentSchedule.EnterDate | src/taskpane/components/payment/PaymentSchedule.tsx:383 | sets only the date |
| PaymentScreen.PaymentSchedule.RefreshAll | src/taskpane/components/payment/PaymentSchedule.tsx:221-225 | payments, accounts and vendors are all started, then settled in the order started |
| PaymentScreen.PaymentSchedule.RefreshLedger | src/taskpane/components/payment/PaymentSchedule.tsx:241-244 | payments and accounts are both started, then settled in the order started |
| PaymentScreen.PaymentSchedule.Mount | src/taskpane/components/payment/PaymentSchedule.tsx:206-210 | the three fetches are all started, then settled in the order started |
| PaymentScreen.PaymentSchedule.HandleAddPayment | src/taskpane/components/payment/PaymentSchedule.tsx:212-235 | the result is the create's. On success: payments, accounts and vendors are refetched, the dialog closes, and the form resets to blank. On failure: the store holds the failed create's state, and the vendors, dialog and form are as they were. |
| PaymentScreen.PaymentSchedule.HandleConfirmPayment | src/taskpane/components/payment/PaymentSchedule.tsx:237-246 | the result is the confirm's; payments and accounts are refetched after a success, and nothing is refetched after a failure |
| PaymentScreen.RefreshError | src/taskpane/components/payment/PaymentSchedule.tsx:221-225 | after a refresh in which the accounts arrive: both deliver means no error and both lists are replaced; a throwing payments fetch leaves its error and the old payments in place |

## Left out

- The HTTP calls, the API URL and the bearer token are not modelled. Each action receives the parsed reply, or `Threw`, as a parameter. `authStore.ts` and `useStore.ts` are not part of this model.
- `Excel.run`, `context.sync`, clearing the sheet and all cell formatting (bold, fill, font size, autofit, the header-row ranges at lines 338 and 369) are not modelled. The worksheet write is an input `SurfaceResult`. The Office/Excel globals are an input `hostReady`.
- Writes are all or nothing: if the write fails partway, the model still issues the whole plan and does not say which cells were written.
- Clocks are not modelled: `toLocaleString` and `toISOString` are opaque string parameters, and so is today's date for the form.
- Amounts and balances are unbounded integers. Fractional amounts, floating point, `toFixed(2)` of non-integers and the `'$0.00'` branch for a non-number amount are not modelled. Neither is the JavaScript number range: integers above 2^53 lose their exact value, and `String(n)` and `toFixed` print magnitudes of 10^21 and above in exponent form ("1e+21"), while `IntToString` and `Money` always print every digit.
- `Promise.all` and the mount effect are modelled in one order: all fetches are started, then they settle in argument order. Other completion orders, and stale fetches overwriting newer mutations, are not modelled.
- Payload fields that are sent but `undefined` inside `data` (for example `data.data.accounts` missing while `data.data` exists) are not modelled. A missing `data` is modelled.
- ReportGrid.ParseRange reads single-letter columns only. That covers every address the report uses (columns A to E).
- ReportGrid.ParseRange has no upper bound on rows, so `PlanWellFormed` holds for any number of accounts and payments only for this reading. Excel's `getRange` refuses rows past 1,048,576. The model represents that failure only through the `SurfaceResult` input.
- The `console.log` and `console.error` calls in `generateReport` (paymentStore.ts lines 287-393) are not modelled: they write diagnostics and change no state.
- The payment service's own checks (amount validation, foreign keys, delete only while pending, balance arithmetic) are not modelled. The client code does none of them: no local amount check before create, no status check before delete, and confirm copies the balance the server reports.
- The rendering, styles, the loading spinner and the error banner of the screen are not modelled. The other components (`App.tsx`, the auth components, `VendorList.tsx`, `AccountReport.tsx`) and the unused `vendors` read at the start of `generateReport` are not part of this model.
- PaymentCache.MergeConfirmed: an absent field and an explicit `null` are both `None`. A server copy carrying `"vendors": null` would overwrite the local `vendors` in the source's spread, while the model keeps the local one. `null` is outside the declared type `vendors?: { name: string }`, so this case is not modelled.

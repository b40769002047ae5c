/**
 * Where `generateReport` writes the report on the active worksheet. The
 * source addresses each write with an A1-style string built by
 * concatenation; this module builds the same strings, parses them back into
 * rectangles, and proves that the rectangles match the value matrices written
 * into them and never overlap, whatever the number of accounts and payments.
 */
module ReportGrid {
  import opened Common
  import opened Ledger
  import Decimal
  import Lists

  /** A worksheet cell value: the source writes strings and numbers. */
  datatype Cell = Text(text: string) | Numeric(value: int)

  /** One `sheet.getRange(address).values = values` assignment. */
  datatype Write = Write(address: string, values: seq<seq<Cell>>)

  /** A rectangle of cells, rows and columns counted from 1 (column A is 1). */
  datatype Range = Range(top: nat, left: nat, bottom: nat, right: nat)

  datatype CellRef = CellRef(column: nat, row: nat)

  predicate IsColumnLetter(c: char) {
    'A' <= c <= 'Z'
  }

  /** A single-letter column reference: A..Z. */
  function ColumnOf(c: char): (col: nat)
    requires IsColumnLetter(c)
    ensures 1 <= col <= 26
  {
    c as int - 'A' as int + 1
  }

  /** A cell reference such as "B12": one column letter, then a row number of at least 1. */
  function ParseCell(s: string): (r: Option<CellRef>)
    ensures r.Some? ==> r.value.row >= 1 && 1 <= r.value.column <= 26
  {
    if |s| >= 2 && IsColumnLetter(s[0]) then
      match Decimal.ParseNat(s[1..])
      case Some(row) => if row >= 1 then Some(CellRef(ColumnOf(s[0]), row)) else None
      case None => None
    else None
  }

  function Identity(c: char): char {
    c
  }

  /** "A4" is a one-cell range; "A4:B7" runs from its top-left to its bottom-right cell. */
  function ParseRange(s: string): (r: Option<Range>)
    ensures r.Some? ==> 1 <= r.value.top <= r.value.bottom && 1 <= r.value.left <= r.value.right
  {
    match Lists.FindKey(s, Identity, ':')
    case None =>
      (match ParseCell(s)
       case Some(c) => Some(Range(c.row, c.column, c.row, c.column))
       case None => None)
    case Some(k) =>
      match (ParseCell(s[..k]), ParseCell(s[k + 1..]))
      case (Some(a), Some(b)) =>
        if a.row <= b.row && a.column <= b.column then Some(Range(a.row, a.column, b.row, b.column)) else None
      case _ => None
  }

  function Height(r: Range): nat {
    if r.bottom >= r.top then r.bottom - r.top + 1 else 0
  }

  function Width(r: Range): nat {
    if r.right >= r.left then r.right - r.left + 1 else 0
  }

  /** The value matrix has exactly the range's shape, as the worksheet requires. */
  predicate Fits(r: Range, values: seq<seq<Cell>>) {
    |values| == Height(r) && forall i :: 0 <= i < |values| ==> |values[i]| == Width(r)
  }

  predicate Disjoint(a: Range, b: Range) {
    a.bottom < b.top || b.bottom < a.top || a.right < b.left || b.right < a.left
  }

  const Letters := "ABCDEFGHIJKLMNOPQRSTUVWXYZ"

  /** The A1-style name of a cell in one of the first 26 columns. */
  function CellAddress(column: nat, row: nat): string
    requires 1 <= column <= 26
  {
    [Letters[column - 1]] + Decimal.NatToString(row)
  }

  /** A well-formed one-letter cell reference reads back as that cell. */
  lemma ParseCellOf(column: nat, row: nat)
    requires 1 <= column <= 26 && row >= 1
    ensures ParseCell(CellAddress(column, row)) == Some(CellRef(column, row))
  {
    var s := CellAddress(column, row);
    assert s[1..] == Decimal.NatToString(row);
    Decimal.ParseNatToString(row);
  }

  /** A cell address has no colon in it. */
  lemma NoColonInCell(column: nat, row: nat)
    requires 1 <= column <= 26
    ensures Lists.FindKey(CellAddress(column, row), Identity, ':').None?
  {
    var s := CellAddress(column, row);
    var digits := Decimal.NatToString(row);
    forall i | 0 <= i < |s| ensures Identity(s[i]) != ':' {
      if i > 0 {
        assert s[i] == digits[i - 1];
      }
    }
  }

  /** A one-cell address reads back as a one-cell range. */
  lemma ParseRangeOfCell(column: nat, row: nat)
    requires 1 <= column <= 26 && row >= 1
    ensures ParseRange(CellAddress(column, row)) == Some(Range(row, column, row, column))
  {
    NoColonInCell(column, row);
    ParseCellOf(column, row);
  }

  /** The first colon of "<cell>:<rest>" is the one after the cell. */
  lemma ColonAfterCell(a: string, b: string)
    requires Lists.FindKey(a, Identity, ':').None?
    ensures Lists.FindKey(a + ":" + b, Identity, ':') == Some(|a|)
  {
    var s := a + ":" + b;
    assert Identity(s[|a|]) == ':';
  }

  /** "<top-left>:<bottom-right>" reads back as the rectangle between the two cells. */
  lemma ParseRangeOfPair(left: nat, top: nat, right: nat, bottom: nat)
    requires 1 <= left <= right <= 26 && 1 <= top <= bottom
    ensures ParseRange(CellAddress(left, top) + ":" + CellAddress(right, bottom)) == Some(Range(top, left, bottom, right))
  {
    var a := CellAddress(left, top);
    var b := CellAddress(right, bottom);
    var s := a + ":" + b;
    NoColonInCell(left, top);
    ColonAfterCell(a, b);
    assert s[..|a|] == a;
    assert s[|a| + 1..] == b;
    ParseCellOf(left, top);
    ParseCellOf(right, bottom);
  }

  /** The accounts table: a header row, then each account's name and balance. */
  function AccountsTable(accounts: seq<Account>): (t: seq<seq<Cell>>)
    ensures |t| == |accounts| + 1 && forall i :: 0 <= i < |t| ==> |t[i]| == 2
  {
    [[Text("Account Name"), Text("Balance")]]
      + seq(|accounts|, i requires 0 <= i < |accounts| => [Text(accounts[i].name), Numeric(accounts[i].balance)])
  }

  /** The accounts matrix is the fixed header, then row `i + 1` names account `i` and gives its balance. */
  lemma AccountRowNames(accounts: seq<Account>, i: nat)
    requires i < |accounts|
    ensures AccountsTable(accounts)[0] == [Text("Account Name"), Text("Balance")]
    ensures AccountsTable(accounts)[i + 1] == [Text(accounts[i].name), Numeric(accounts[i].balance)]
  {
  }

  /** One payment row: joined names fall back to "Unknown" when missing or empty. */
  function PaymentRow(p: Payment): (row: seq<Cell>)
    ensures |row| == 5
    ensures row[0] == Text(if VendorName(p).Some? && VendorName(p).value != "" then VendorName(p).value else "Unknown")
    ensures row[1] == Text(if AccountName(p).Some? && AccountName(p).value != "" then AccountName(p).value else "Unknown")
    ensures row[2..] == [Numeric(p.amount), Text(p.payment_date), Text(p.status)]
  {
    [Text(NameOr(VendorName(p), "Unknown")),
     Text(NameOr(AccountName(p), "Unknown")),
     Numeric(p.amount),
     Text(p.payment_date),
     Text(p.status)]
  }

  /** The payments table: a header row, then one row per payment. */
  function PaymentsTable(payments: seq<Payment>): (t: seq<seq<Cell>>)
    ensures |t| == |payments| + 1 && forall i :: 0 <= i < |t| ==> |t[i]| == 5
  {
    [[Text("Vendor"), Text("Account"), Text("Amount"), Text("Date"), Text("Status")]]
      + seq(|payments|, i requires 0 <= i < |payments| => PaymentRow(payments[i]))
  }

  /** The A1-style name of the rectangle between two cells, "<top-left>:<bottom-right>". */
  function RangeAddress(left: nat, top: nat, right: nat, bottom: nat): string
    requires 1 <= left <= 26 && 1 <= right <= 26
  {
    CellAddress(left, top) + ":" + CellAddress(right, bottom)
  }

  /** A rectangle with rows from 1 and its columns among A..Z. */
  predicate Addressable(r: Range) {
    1 <= r.top <= r.bottom && 1 <= r.left <= r.right <= 26
  }

  /** The name the source uses for a rectangle: one cell alone, else its two corners. */
  function Address(r: Range): string
    requires Addressable(r)
  {
    if r.top == r.bottom && r.left == r.right then CellAddress(r.left, r.top)
    else RangeAddress(r.left, r.top, r.right, r.bottom)
  }

  /** Every addressable rectangle's name reads back as that rectangle. */
  lemma AddressRoundTrip(r: Range)
    requires Addressable(r)
    ensures ParseRange(Address(r)) == Some(r)
  {
    if r.top == r.bottom && r.left == r.right {
      ParseRangeOfCell(r.left, r.top);
    } else {
      ParseRangeOfPair(r.left, r.top, r.right, r.bottom);
    }
  }

  /**
   * The rectangles `generateReport` writes, for n accounts and m payments, in
   * the order the source issues the writes: the title in A1, the accounts
   * header in A3, the accounts table from row 4 (a header row and n rows, two
   * columns), the payments header at paymentsStartRow = n + 6, the payments
   * table from paymentsStartRow + 1 (a header row and m rows, five columns),
   * and last the timestamp in A2.
   */
  function Layout(n: nat, m: nat): (layout: seq<Range>)
    ensures |layout| == 6 && forall k :: 0 <= k < 6 ==> Addressable(layout[k])
  {
    var paymentsStartRow := n + 6;
    var paymentsTableStartRow := paymentsStartRow + 1;
    [ Range(1, 1, 1, 1),
      Range(3, 1, 3, 1),
      Range(4, 1, n + 4, 2),
      Range(paymentsStartRow, 1, paymentsStartRow, 1),
      Range(paymentsTableStartRow, 1, paymentsTableStartRow + m, 5),
      Range(2, 1, 2, 1) ]
  }

  /** What the source writes into rectangle k of the layout. */
  function Contents(accounts: seq<Account>, payments: seq<Payment>, generatedAt: string, k: nat): (values: seq<seq<Cell>>)
    requires k < 6
    ensures Fits(Layout(|accounts|, |payments|)[k], values)
  {
    match k
    case 0 => [[Text("Financial Report")]]
    case 1 => [[Text("Account Status")]]
    case 2 => AccountsTable(accounts)
    case 3 => [[Text("Recent Payments")]]
    case 4 => PaymentsTable(payments)
    case _ => [[Text("Report Generated at: " + generatedAt)]]
  }

  /** The writes of `generateReport`, in order: each layout rectangle with the values the source puts there. */
  function Plan(accounts: seq<Account>, payments: seq<Payment>, generatedAt: string): (plan: seq<Write>)
    ensures |plan| == 6
  {
    var layout := Layout(|accounts|, |payments|);
    seq(6, k requires 0 <= k < 6 => Write(Address(layout[k]), Contents(accounts, payments, generatedAt, k)))
  }

  /** The fixed cells are "A1", "A2" and "A3". */
  lemma LiteralAddresses()
    ensures Address(Range(1, 1, 1, 1)) == "A1" && Address(Range(2, 1, 2, 1)) == "A2" && Address(Range(3, 1, 3, 1)) == "A3"
  {
    assert Decimal.NatToString(1) == "1" && Decimal.NatToString(2) == "2" && Decimal.NatToString(3) == "3";
  }

  /** The accounts table sits at `"A4:B" + (n + 4)`. */
  lemma AccountsTableAddress(n: nat)
    ensures Address(Range(4, 1, n + 4, 2)) == "A4:B" + Decimal.NatToString(n + 4)
  {
    assert Decimal.NatToString(4) == "4";
    assert CellAddress(1, 4) == "A4";
  }

  /** The payments header sits at `` `A${row}` ``. */
  lemma HeaderAddress(row: nat)
    requires row >= 1
    ensures Address(Range(row, 1, row, 1)) == "A" + Decimal.NatToString(row)
  {
  }

  /** The payments table sits at `` `A${top}:E${bottom}` ``. */
  lemma FiveColumnAddress(top: nat, bottom: nat)
    requires 1 <= top <= bottom
    ensures Address(Range(top, 1, bottom, 5)) == "A" + Decimal.NatToString(top) + ":E" + Decimal.NatToString(bottom)
  {
    assert ":E" + Decimal.NatToString(bottom) == ":" + ("E" + Decimal.NatToString(bottom));
  }

  /** The address of each of the six writes is the string the source concatenates. */
  lemma PlanAddressStrings(accounts: seq<Account>, payments: seq<Payment>, generatedAt: string)
    ensures var plan := Plan(accounts, payments, generatedAt);
      var n, m := |accounts|, |payments|;
      |plan| == 6 &&
      plan[0].address == "A1" && plan[1].address == "A3" &&
      plan[2].address == "A4:B" + Decimal.NatToString(n + 4) &&
      plan[3].address == "A" + Decimal.NatToString(n + 6) &&
      plan[4].address == "A" + Decimal.NatToString(n + 7) + ":E" + Decimal.NatToString(n + 7 + m) &&
      plan[5].address == "A2"
  {
    var n, m := |accounts|, |payments|;
    var plan := Plan(accounts, payments, generatedAt);
    assert plan[0].address == Address(Range(1, 1, 1, 1));
    assert plan[1].address == Address(Range(3, 1, 3, 1));
    assert plan[2].address == Address(Range(4, 1, n + 4, 2));
    assert plan[3].address == Address(Range(n + 6, 1, n + 6, 1));
    assert plan[4].address == Address(Range(n + 7, 1, n + 7 + m, 5));
    assert plan[5].address == Address(Range(2, 1, 2, 1));
    LiteralAddresses();
    AccountsTableAddress(n);
    HeaderAddress(n + 6);
    FiveColumnAddress(n + 7, n + 7 + m);
  }

  /** Every address of the plan reads back as the intended rectangle. */
  lemma PlanAddresses(accounts: seq<Account>, payments: seq<Payment>, generatedAt: string)
    ensures var plan := Plan(accounts, payments, generatedAt);
      |plan| == 6 &&
      forall k :: 0 <= k < 6 ==> ParseRange(plan[k].address) == Some(Layout(|accounts|, |payments|)[k])
  {
    var layout := Layout(|accounts|, |payments|);
    forall k | 0 <= k < 6 ensures ParseRange(Address(layout[k])) == Some(layout[k]) {
      AddressRoundTrip(layout[k]);
    }
  }

  /** Every value matrix of the plan has the shape of its rectangle: n + 1 rows of 2, m + 1 rows of 5, single cells. */
  lemma PlanShapes(accounts: seq<Account>, payments: seq<Payment>, generatedAt: string)
    ensures var plan := Plan(accounts, payments, generatedAt);
      |plan| == 6 &&
      forall i :: 0 <= i < 6 ==> Fits(Layout(|accounts|, |payments|)[i], plan[i].values)
  {
    var plan := Plan(accounts, payments, generatedAt);
    var layout := Layout(|accounts|, |payments|);
    forall k | 0 <= k < 6 ensures Fits(layout[k], plan[k].values) {
      assert plan[k].values == Contents(accounts, payments, generatedAt, k);
    }
  }

  /**
   * No two rectangles share a cell, row n + 5 is left blank, and the
   * payments section starts strictly below the accounts table.
   */
  lemma LayoutSeparated(n: nat, m: nat)
    ensures var layout := Layout(n, m);
      (forall i, j :: 0 <= i < j < 6 ==> Disjoint(layout[i], layout[j])) &&
      (forall i :: 0 <= i < 6 ==> !(layout[i].top <= n + 5 <= layout[i].bottom)) &&
      layout[3].top == layout[2].bottom + 2
  {
  }

  /**
   * The plan as the worksheet receives it: every address parses, every value
   * matrix fits its parsed rectangle, and no two parsed rectangles overlap,
   * for any number of accounts and payments, including none.
   */
  lemma PlanWellFormed(accounts: seq<Account>, payments: seq<Payment>, generatedAt: string)
    ensures var plan := Plan(accounts, payments, generatedAt);
      (forall i :: 0 <= i < |plan| ==>
        ParseRange(plan[i].address).Some? && Fits(ParseRange(plan[i].address).value, plan[i].values)) &&
      (forall i, j :: 0 <= i < j < |plan| ==>
        Disjoint(ParseRange(plan[i].address).value, ParseRange(plan[j].address).value))
  {
    var plan := Plan(accounts, payments, generatedAt);
    var layout := Layout(|accounts|, |payments|);
    PlanAddresses(accounts, payments, generatedAt);
    PlanShapes(accounts, payments, generatedAt);
    LayoutSeparated(|accounts|, |payments|);
    forall i | 0 <= i < |plan| ensures ParseRange(plan[i].address) == Some(layout[i]) && Fits(layout[i], plan[i].values) {
    }
    forall i, j | 0 <= i < j < |plan| ensures Disjoint(ParseRange(plan[i].address).value, ParseRange(plan[j].address).value) {
      assert Disjoint(layout[i], layout[j]);
    }
  }

  /** Row `i + 1` of the payments table is the row of payment `i`, after the header. */
  lemma PaymentRowNames(payments: seq<Payment>, i: nat)
    requires i < |payments|
    ensures PaymentsTable(payments)[i + 1] == PaymentRow(payments[i])
    ensures PaymentsTable(payments)[0] == [Text("Vendor"), Text("Account"), Text("Amount"), Text("Date"), Text("Status")]
  {
  }
}

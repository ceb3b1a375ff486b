/** The invoice: the row loop with its accumulators, page cursor and row counter. */
module Invoice {
  import opened Collections
  import opened Records
  import opened Store
  import opened Ledger
  import Customers
  import Transactions

  /** The height of an A4 page in points: 297 mm at 72 points to the inch of 25.4 mm. */
  const HEIGHT: real := 297.0 * 72.0 / 25.4

  /** One table row as drawn: where, with or without background, and what. */
  datatype Drawn = Drawn(page: nat, y: real, shaded: bool, date: int, kind: Kind, amount: real, note: string)

  datatype Printed = Printed(rows: seq<Drawn>, pages: nat, totalCredit: real, totalPaid: real, outstanding: real)

  // ---- Where rows go --------------------------------------------------------------------------

  /** Rows on the first page and on every following one. */
  const FIRST := 31
  const NEXT := 40

  function PageOf(i: nat): nat { if i < FIRST then 1 else 2 + (i - FIRST) / NEXT }

  function SlotOf(i: nat): nat { if i < FIRST then i else (i - FIRST) % NEXT }

  /** The cursor for slot k of a page: the first page starts below the header. */
  function SlotY(page: nat, k: nat): real {
    (if page == 1 then HEIGHT - 215.0 else HEIGHT - 50.0) - 18.0 * k as real
  }

  /** The number of pages rows are drawn on. */
  function RowPages(n: nat): nat {
    if n <= FIRST then 1 else 1 + (n - FIRST + NEXT - 1) / NEXT
  }

  /** The note is cut off at 22 characters. */
  function Clipped(note: string): string {
    if |note| > 22 then note[..22] else note
  }

  function RowFor(t: Txn, i: nat): Drawn {
    Drawn(PageOf(i), SlotY(PageOf(i), SlotOf(i)), i % 2 == 0, t.date, t.kind, t.amount, Clipped(t.note))
  }

  function DrawnAs(kind: Kind): Drawn -> bool { (r: Drawn) => r.kind == kind }

  function DrawnAmount(r: Drawn): real { r.amount }

  /** The cursor right after row i - 1, before any page break for row i. */
  function Cursor(i: nat): real {
    if i == 0 then SlotY(1, 0) else SlotY(PageOf(i - 1), SlotOf(i - 1)) - 18.0
  }

  /** The page breaks exactly where row i starts a new page. */
  lemma BreakStartsPage(i: nat)
    ensures Cursor(i) < 80.0 <==> i > 0 && PageOf(i) == PageOf(i - 1) + 1
    ensures Cursor(i) >= 80.0 ==> (i > 0 ==> PageOf(i) == PageOf(i - 1)) && SlotY(PageOf(i), SlotOf(i)) == Cursor(i)
    ensures Cursor(i) < 80.0 ==> SlotY(PageOf(i), SlotOf(i)) == HEIGHT - 50.0
  {
  }

  // ---- The loop --------------------------------------------------------------------------------

  method GenerateInvoice(transactions: seq<Txn>, balance: real) returns (p: Printed)
    ensures |p.rows| == |transactions|
    ensures forall i :: 0 <= i < |transactions| ==> p.rows[i] == RowFor(transactions[i], i)
    ensures p.pages == RowPages(|transactions|)
    ensures p.totalCredit == Sum(Filter(transactions, IsKind(Credit)), Amount)
    ensures p.totalPaid == Sum(Filter(transactions, IsKind(Payment)), Amount)
    ensures p.outstanding == balance
    ensures forall i :: 0 <= i < |transactions| ==>
              var t, row := transactions[i], p.rows[i];
              && row.date == t.date && row.kind == t.kind && row.amount == t.amount
              && row.note <= t.note && |row.note| == (if |t.note| < 22 then |t.note| else 22)
              && row.shaded == (i % 2 == 0)
    ensures forall i :: 0 <= i < |transactions| ==>
              var top := 297.0 * 72.0 / 25.4;
              && p.rows[i].page == (if i < 31 then 1 else 2 + (i - 31) / 40)
              && p.rows[i].y == if i < 31 then top - 215.0 - 18.0 * i as real
                                else top - 50.0 - 18.0 * ((i - 31) % 40) as real
    ensures p.pages == if |transactions| <= 31 then 1 else 1 + (|transactions| - 31 + 39) / 40
    ensures Sum(Filter(p.rows, DrawnAs(Credit)), DrawnAmount) == p.totalCredit
    ensures Sum(Filter(p.rows, DrawnAs(Payment)), DrawnAmount) == p.totalPaid
  {
    hide Cursor, RowPages, PageOf, SlotOf, SlotY, Filter, Sum;
    FirstPlace();
    var y := HEIGHT - 110.0;
    y := y - 60.0;
    y := y - 25.0;
    y := y - 20.0;
    var page := 1;
    var totalCredit, totalPaid := 0.0, 0.0;
    var rowNum := 0;
    var rows: seq<Drawn> := [];
    for i := 0 to |transactions|
      invariant y == Cursor(i) && rowNum == i
      invariant page == RowPages(i)
      invariant |rows| == i
      invariant forall j :: 0 <= j < i ==> rows[j] == RowFor(transactions[j], j)
      invariant totalCredit == Sum(Filter(transactions[..i], IsKind(Credit)), Amount)
      invariant totalPaid == Sum(Filter(transactions[..i], IsKind(Payment)), Amount)
    {
      PlaceRow(i);
      if y < 80.0 {
        page := page + 1;
        y := HEIGHT - 50.0;
      }
      var t := transactions[i];
      KindSumGrows(transactions, i, Credit);
      KindSumGrows(transactions, i, Payment);
      if t.kind == Credit {
        totalCredit := totalCredit + t.amount;
      } else {
        totalPaid := totalPaid + t.amount;
      }
      rows := rows + [Drawn(page, y, rowNum % 2 == 0, t.date, t.kind, t.amount,
                            if |t.note| > 22 then t.note[..22] else t.note)];
      y := y - 18.0;
      rowNum := rowNum + 1;
    }
    assert transactions[..|transactions|] == transactions;
    p := Printed(rows, page, totalCredit, totalPaid, balance);
    RowsCarry(rows, transactions);
    RowsPlaced(rows, transactions);
    PrintedAddUp(rows, transactions, Credit);
    PrintedAddUp(rows, transactions, Payment);
  }

  lemma RowsCarry(rows: seq<Drawn>, transactions: seq<Txn>)
    requires |rows| == |transactions| && forall i :: 0 <= i < |rows| ==> rows[i] == RowFor(transactions[i], i)
    ensures forall i :: 0 <= i < |rows| ==>
              var t, row := transactions[i], rows[i];
              && row.date == t.date && row.kind == t.kind && row.amount == t.amount
              && row.note <= t.note && |row.note| == (if |t.note| < 22 then |t.note| else 22)
              && row.shaded == (i % 2 == 0)
  {
    hide PageOf, SlotOf, SlotY;
  }

  lemma RowsPlaced(rows: seq<Drawn>, transactions: seq<Txn>)
    requires |rows| == |transactions| && forall i :: 0 <= i < |rows| ==> rows[i] == RowFor(transactions[i], i)
    ensures forall i :: 0 <= i < |rows| ==>
              var top := 297.0 * 72.0 / 25.4;
              && rows[i].page == (if i < 31 then 1 else 2 + (i - 31) / 40)
              && rows[i].y == if i < 31 then top - 215.0 - 18.0 * i as real
                              else top - 50.0 - 18.0 * ((i - 31) % 40) as real
    ensures RowPages(|rows|) == if |rows| <= 31 then 1 else 1 + (|rows| - 31 + 39) / 40
  {
  }

  /** The printed amounts of one kind add up to those of the transactions. */
  lemma {:induction false} PrintedAddUp(rows: seq<Drawn>, transactions: seq<Txn>, kind: Kind)
    requires |rows| == |transactions|
    requires forall i :: 0 <= i < |rows| ==>
               rows[i].kind == transactions[i].kind && rows[i].amount == transactions[i].amount
    ensures Sum(Filter(rows, DrawnAs(kind)), DrawnAmount) == Sum(Filter(transactions, IsKind(kind)), Amount)
  {
    if rows != [] {
      var n := |rows| - 1;
      PrintedAddUp(rows[..n], transactions[..n], kind);
      FilterLast(rows, DrawnAs(kind), DrawnAmount);
      FilterLast(transactions, IsKind(kind), Amount);
    }
  }

  lemma FirstPlace()
    ensures Cursor(0) == HEIGHT - 110.0 - 60.0 - 25.0 - 20.0 && RowPages(0) == 1
    ensures Sum(Filter([], IsKind(Credit)), Amount) == 0.0 == Sum(Filter([], IsKind(Payment)), Amount)
  {
  }

  /** One turn of the loop: the page break, then the row's place, then the next cursor. */
  lemma PlaceRow(i: nat)
    ensures PageOf(i) == RowPages(i) + if Cursor(i) < 80.0 then 1 else 0
    ensures SlotY(PageOf(i), SlotOf(i)) == if Cursor(i) < 80.0 then HEIGHT - 50.0 else Cursor(i)
    ensures Cursor(i + 1) == SlotY(PageOf(i), SlotOf(i)) - 18.0
    ensures RowPages(i + 1) == PageOf(i)
  {
    hide SlotY, SlotOf;
    BreakStartsPage(i);
    assert i > 0 ==> RowPages(i) == PageOf(i - 1);
  }

  lemma KindSumGrows(docs: seq<Txn>, i: nat, kind: Kind)
    requires i < |docs|
    ensures Sum(Filter(docs[..i + 1], IsKind(kind)), Amount)
         == Sum(Filter(docs[..i], IsKind(kind)), Amount) + Share(docs[i], kind)
  {
    assert docs[..i + 1][..i] == docs[..i];
    FilterLast(docs[..i + 1], IsKind(kind), Amount);
  }

  // ---- The layout ---------------------------------------------------------------------------------

  /** Every row lies inside the printable area, rows that follow each other on a page are
      18 points apart, and no two rows share a place. */
  lemma RowsLaidOut(i: nat, j: nat)
    requires i < j
    ensures 80.0 <= SlotY(PageOf(i), SlotOf(i)) <= HEIGHT - 50.0
    ensures PageOf(i) <= PageOf(j)
    ensures PageOf(i) == PageOf(j) ==>
              SlotY(PageOf(i), SlotOf(i)) - SlotY(PageOf(j), SlotOf(j)) == 18.0 * (j - i) as real
  {
  }

  // ---- Reconciliation --------------------------------------------------------------------------------

  /** The invoice a merchant prints for one of its customers agrees with the books: its
      totals are the cached ones, and what is outstanding is their difference. */
  lemma InvoiceReconciles(s: State, c: Id, merchant: string, docs: seq<Txn>)
    requires Linked(s) && Exact(s) && IsCustomerOf(s, c, merchant)
    requires Lists(docs, Transactions.Selected(s, merchant, Transactions.Only(c)))
    ensures Sum(Filter(docs, IsKind(Credit)), Amount) == s.customers[c].totalCredit
    ensures Sum(Filter(docs, IsKind(Payment)), Amount) == s.customers[c].totalPaid
    ensures s.customers[c].balance
         == Sum(Filter(docs, IsKind(Credit)), Amount) - Sum(Filter(docs, IsKind(Payment)), Amount)
  {
    hide SumOf, Lists, Filter, Sum;
    assert Transactions.Selected(s, merchant, Transactions.Only(c)) == Own(s, c);
    Customers.ListedKind(docs, Own(s, c), Credit);
    Customers.ListedKind(docs, Own(s, c), Payment);
    assert ExactFor(s, c);
  }
}

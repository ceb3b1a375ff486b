/** The monthly aggregation and the pivot table filled from it. The calendar that maps a
    date to its year and month is a parameter: any calendar will do. */
module MonthlyTrend {
  import opened Collections
  import opened Records
  import opened Store

  datatype YearMonth = YearMonth(year: nat, month: nat)

  type Month = m: YearMonth | 1 <= m.month <= 12 witness YearMonth(1970, 1)

  type Calendar = int -> Month

  /** Months in the order of the calendar. */
  predicate Before(a: Month, b: Month) {
    a.year < b.year || (a.year == b.year && a.month < b.month)
  }

  /** The sort key of a month. */
  function Index(m: Month): int { 12 * m.year + m.month }

  lemma IndexOrders(a: Month, b: Month)
    ensures Index(a) < Index(b) <==> Before(a, b)
    ensures Index(a) == Index(b) <==> a == b
  {
  }

  function InCell(cal: Calendar, month: Month, kind: Kind): Txn -> bool {
    (t: Txn) => cal(t.date) == month && t.kind == kind
  }

  /** The sum of the transactions of one month and kind. */
  ghost function CellOf(h: History, cal: Calendar, month: Month, kind: Kind): real {
    Total(Restrict(h, InCell(cal, month, kind)), Amount)
  }

  ghost predicate CellUsed(h: History, cal: Calendar, month: Month, kind: Kind) {
    exists k :: k in h && cal(h[k].date) == month && h[k].kind == kind
  }

  lemma UnusedCell(h: History, cal: Calendar, month: Month, kind: Kind)
    requires !CellUsed(h, cal, month, kind)
    ensures CellOf(h, cal, month, kind) == 0.0
  {
  }

  // ---- The aggregation ----------------------------------------------------------------------

  datatype Group = Group(month: Month, kind: Kind, total: real)

  /** raw is the grouping of h by month and kind: sorted by month, one group for each
      combination in use, carrying its sum. */
  ghost predicate Summarises(raw: seq<Group>, h: History, cal: Calendar) {
    && (forall i, j :: 0 <= i < j < |raw| ==> !Before(raw[j].month, raw[i].month))
    && (forall i, j :: 0 <= i < j < |raw| ==> raw[i].month != raw[j].month || raw[i].kind != raw[j].kind)
    && (forall i :: 0 <= i < |raw| ==>
          CellUsed(h, cal, raw[i].month, raw[i].kind) && raw[i].total == CellOf(h, cal, raw[i].month, raw[i].kind))
    && (forall k :: k in h ==> exists i :: 0 <= i < |raw| && raw[i].month == cal(h[k].date) && raw[i].kind == h[k].kind)
  }

  function CellsOf(h: History, cal: Calendar): set<(Month, Kind)> {
    set k | k in h :: (cal(h[k].date), h[k].kind)
  }

  function Ranks(cells: set<(Month, Kind)>): map<(Month, Kind), int> {
    map g | g in cells :: Index(g.0)
  }

  method GetMonthlySummary(db: Database, merchant: string, cal: Calendar) returns (raw: seq<Group>)
    ensures Summarises(raw, Restrict(db.txns, OfMerchant(merchant)), cal)
    ensures forall i, j :: 0 <= i < j < |raw| ==>
              || raw[i].month.year < raw[j].month.year
              || (raw[i].month.year == raw[j].month.year && raw[i].month.month <= raw[j].month.month)
  {
    hide Summarises, Restrict, CellsOf, CellOf;
    var h := Restrict(db.txns, OfMerchant(merchant));
    var cells := CellsOf(h, cal);
    var q := Sorted(cells, Ranks(cells));
    raw := [];
    for i := 0 to |q|
      invariant |raw| == i
      invariant forall j :: 0 <= j < i ==> raw[j] == Group(q[j].0, q[j].1, CellOf(h, cal, q[j].0, q[j].1))
    {
      var total := SumCell(h, cal, q[i].0, q[i].1);
      raw := raw + [Group(q[i].0, q[i].1, total)];
    }
    CellsSummarise(h, cal, q, raw);
    GroupsInOrder(raw, h, cal);
  }

  lemma GroupsInOrder(raw: seq<Group>, h: History, cal: Calendar)
    requires Summarises(raw, h, cal)
    ensures forall i, j :: 0 <= i < j < |raw| ==> !Before(raw[j].month, raw[i].month)
  {
    hide CellOf;
  }

  method SumCell(h: History, cal: Calendar, month: Month, kind: Kind) returns (total: real)
    ensures total == CellOf(h, cal, month, kind)
  {
    var docs := Find(Restrict(h, InCell(cal, month, kind)));
    ListedSum(docs, Restrict(h, InCell(cal, month, kind)), Amount);
    total := Sum(docs, Amount);
  }

  lemma EveryCellGrouped(h: History, cal: Calendar, q: seq<(Month, Kind)>, raw: seq<Group>, k: Id)
    requires Enumerates(q, CellsOf(h, cal)) && |raw| == |q| && k in h
    requires forall j :: 0 <= j < |q| ==> raw[j].month == q[j].0 && raw[j].kind == q[j].1
    ensures exists i :: 0 <= i < |raw| && raw[i].month == cal(h[k].date) && raw[i].kind == h[k].kind
  {
    assert (cal(h[k].date), h[k].kind) in CellsOf(h, cal);
    var i :| 0 <= i < |q| && q[i] == (cal(h[k].date), h[k].kind);
    assert raw[i].month == cal(h[k].date);
  }

  lemma CellInUse(h: History, cal: Calendar, g: (Month, Kind))
    requires g in CellsOf(h, cal)
    ensures CellUsed(h, cal, g.0, g.1)
  {
  }

  lemma CellsSummarise(h: History, cal: Calendar, q: seq<(Month, Kind)>, raw: seq<Group>)
    requires Enumerates(q, CellsOf(h, cal)) && Ascending(q, Ranks(CellsOf(h, cal)))
    requires |raw| == |q|
    requires forall j :: 0 <= j < |q| ==> raw[j] == Group(q[j].0, q[j].1, CellOf(h, cal, q[j].0, q[j].1))
    ensures Summarises(raw, h, cal)
  {
    hide CellOf, CellsOf, CellUsed;
    forall k | k in h ensures exists i :: 0 <= i < |raw| && raw[i].month == cal(h[k].date) && raw[i].kind == h[k].kind {
      EveryCellGrouped(h, cal, q, raw, k);
    }
    forall i | 0 <= i < |raw| ensures CellUsed(h, cal, raw[i].month, raw[i].kind) {
      CellInUse(h, cal, q[i]);
    }
    assert forall i :: 0 <= i < |q| ==> q[i] in CellsOf(h, cal);
    forall i, j | 0 <= i < j < |raw| ensures !Before(raw[j].month, raw[i].month) {
      IndexOrders(raw[j].month, raw[i].month);
    }
  }

  // ---- Month labels -----------------------------------------------------------------------------

  const ABBREVIATIONS: seq<string> :=
    ["Jan", "Feb", "Mar", "Apr", "May", "Jun", "Jul", "Aug", "Sep", "Oct", "Nov", "Dec"]

  function Abbreviation(month: nat): (s: string)
    requires 1 <= month <= 12
    ensures |s| == 3
  {
    assert forall i :: 0 <= i < 12 ==> |ABBREVIATIONS[i]| == 3;
    ABBREVIATIONS[month - 1]
  }

  function Digits(n: nat): (s: string)
    ensures s != []
  {
    var last := ["0123456789"[n % 10]];
    if n < 10 then last else Digits(n / 10) + last
  }

  /** The label of a month, as in "Jan 2026". */
  function Label(m: Month): string {
    Abbreviation(m.month) + " " + Digits(m.year)
  }

  /** The number a decimal numeral stands for. */
  function Value(s: string): int {
    if s == [] then 0 else 10 * Value(s[..|s| - 1]) + (s[|s| - 1] as int - '0' as int)
  }

  lemma {:induction false} DigitsRead(n: nat)
    ensures Value(Digits(n)) == n
  {
    var s := Digits(n);
    DigitValue(n % 10);
    if n >= 10 {
      assert s[..|s| - 1] == Digits(n / 10);
      DigitsRead(n / 10);
    }
  }

  lemma DigitValue(d: nat)
    requires d < 10
    ensures "0123456789"[d] as int == '0' as int + d
  {
  }

  /** A label spells the month's English abbreviation, a space and the year. */
  lemma LabelReads(m: Month)
    ensures Label(m)[..4] == ["Jan ", "Feb ", "Mar ", "Apr ", "May ", "Jun ",
                              "Jul ", "Aug ", "Sep ", "Oct ", "Nov ", "Dec "][m.month - 1]
    ensures Value(Label(m)[4..]) == m.year
  {
    assert Label(m)[4..] == Digits(m.year);
    DigitsRead(m.year);
    assert Label(m)[..4] == Abbreviation(m.month) + " ";
  }

  lemma AbbreviationInjective(a: nat, b: nat)
    requires 1 <= a <= 12 && 1 <= b <= 12 && Abbreviation(a) == Abbreviation(b)
    ensures a == b
  {
  }

  /** Two months never share a label, so no row of the pivot table mixes months. */
  lemma LabelInjective(a: Month, b: Month)
    requires Label(a) == Label(b)
    ensures a == b
  {
    var s, t := Label(a), Label(b);
    assert s[..3] == Abbreviation(a.month) && t[..3] == Abbreviation(b.month);
    assert s[4..] == Digits(a.year) && t[4..] == Digits(b.year);
    AbbreviationInjective(a.month, b.month);
    DigitsRead(a.year);
    DigitsRead(b.year);
  }

  // ---- The pivot table -------------------------------------------------------------------------------

  datatype TrendRow = TrendRow(title: string, month: Month, credit: real, payment: real)

  function CellIn(kind: Kind): TrendRow -> real {
    (r: TrendRow) => if kind == Credit then r.credit else r.payment
  }

  function Assign(r: TrendRow, kind: Kind, total: real): TrendRow {
    if kind == Credit then r.(credit := total) else r.(payment := total)
  }

  ghost predicate MonthUsed(h: History, cal: Calendar, month: Month) {
    exists k :: k in h && cal(h[k].date) == month
  }

  ghost predicate Shown(df: seq<TrendRow>, month: Month) {
    exists i :: 0 <= i < |df| && df[i].month == month
  }

  /** df shows h month by month: strictly increasing months, exactly those in use, each
      cell the sum of its transactions. */
  ghost predicate Shows(df: seq<TrendRow>, h: History, cal: Calendar) {
    && (forall i, j :: 0 <= i < j < |df| ==> Before(df[i].month, df[j].month))
    && (forall i :: 0 <= i < |df| ==> df[i].title == Label(df[i].month))
    && (forall i :: 0 <= i < |df| ==>
          df[i].credit == CellOf(h, cal, df[i].month, Credit) && df[i].payment == CellOf(h, cal, df[i].month, Payment))
    && (forall k :: k in h ==> Shown(df, cal(h[k].date)))
    && (forall i :: 0 <= i < |df| ==> MonthUsed(h, cal, df[i].month))
  }

  /** Some of the first n groups fills this cell. */
  ghost predicate Filled(raw: seq<Group>, n: nat, month: Month, kind: Kind)
    requires n <= |raw|
  {
    exists j :: 0 <= j < n && raw[j].month == month && raw[j].kind == kind
  }

  ghost predicate Titled(rows: map<string, TrendRow>) {
    forall key :: key in rows ==> rows[key].title == key && key == Label(rows[key].month)
  }

  ghost predicate Earned(rows: map<string, TrendRow>, raw: seq<Group>, n: nat)
    requires n <= |raw|
  {
    forall key :: key in rows ==> exists j :: 0 <= j < n && raw[j].month == rows[key].month
  }

  ghost predicate Placed(rows: map<string, TrendRow>, g: Group) {
    && Label(g.month) in rows
    && rows[Label(g.month)].month == g.month
    && CellIn(g.kind)(rows[Label(g.month)]) == g.total
  }

  ghost predicate DefaultsKept(rows: map<string, TrendRow>, raw: seq<Group>, n: nat)
    requires n <= |raw|
  {
    forall key, kind :: key in rows && !Filled(raw, n, rows[key].month, kind) ==> CellIn(kind)(rows[key]) == 0.0
  }

  /** The rows dictionary after the first n groups. */
  ghost predicate PivotSoFar(rows: map<string, TrendRow>, raw: seq<Group>, n: nat)
    requires n <= |raw|
  {
    && Titled(rows)
    && Earned(rows, raw, n)
    && (forall j :: 0 <= j < n ==> Placed(rows, raw[j]))
    && DefaultsKept(rows, raw, n)
  }

  function Opened(rows: map<string, TrendRow>, g: Group): map<string, TrendRow> {
    if Label(g.month) in rows then rows
    else rows[Label(g.month) := TrendRow(Label(g.month), g.month, 0.0, 0.0)]
  }

  /** The cell a group is assigned to still holds its default when the group comes up. */
  lemma NeverOverwritten(rows: map<string, TrendRow>, raw: seq<Group>, n: nat)
    requires n < |raw| && PivotSoFar(rows, raw, n)
    requires forall i, j :: 0 <= i < j < |raw| ==> raw[i].month != raw[j].month || raw[i].kind != raw[j].kind
    ensures var key := Label(raw[n].month);
            && Opened(rows, raw[n])[key].month == raw[n].month
            && CellIn(raw[n].kind)(Opened(rows, raw[n])[key]) == 0.0
  {
    hide Label;
    var key := Label(raw[n].month);
    if key in rows {
      LabelInjective(rows[key].month, raw[n].month);
      assert !Filled(raw, n, raw[n].month, raw[n].kind);
    }
  }

  function Filling(rows: map<string, TrendRow>, g: Group): (after: map<string, TrendRow>)
  {
    var wider := Opened(rows, g);
    wider[Label(g.month) := Assign(wider[Label(g.month)], g.kind, g.total)]
  }

  lemma StillTitled(rows: map<string, TrendRow>, raw: seq<Group>, n: nat)
    requires n < |raw| && Titled(rows) && Earned(rows, raw, n)
    ensures Titled(Filling(rows, raw[n])) && Earned(Filling(rows, raw[n]), raw, n + 1)
  {
    hide Label;
    var after := Filling(rows, raw[n]);
    if Label(raw[n].month) in rows {
      LabelInjective(rows[Label(raw[n].month)].month, raw[n].month);
    }
    forall key | key in after ensures exists j :: 0 <= j < n + 1 && raw[j].month == after[key].month {
      if key == Label(raw[n].month) {
        assert raw[n].month == after[key].month;
      } else {
        var j :| 0 <= j < n && raw[j].month == rows[key].month;
      }
    }
  }

  lemma StillPlaced(rows: map<string, TrendRow>, g: Group, g': Group)
    requires Titled(rows) && Placed(rows, g)
    requires g.month != g'.month || g.kind != g'.kind
    ensures Placed(Filling(rows, g'), g)
  {
    hide Label;
    if Label(g.month) == Label(g'.month) {
      LabelInjective(g.month, g'.month);
    }
  }

  lemma NowPlaced(rows: map<string, TrendRow>, g: Group)
    requires Titled(rows)
    ensures Placed(Filling(rows, g), g)
  {
    hide Label;
    if Label(g.month) in rows {
      LabelInjective(rows[Label(g.month)].month, g.month);
    }
  }

  lemma DefaultsStillKept(rows: map<string, TrendRow>, raw: seq<Group>, n: nat)
    requires n < |raw| && Titled(rows) && DefaultsKept(rows, raw, n)
    ensures DefaultsKept(Filling(rows, raw[n]), raw, n + 1)
  {
    hide Label;
    var g, after := raw[n], Filling(rows, raw[n]);
    forall key, kind | key in after && !Filled(raw, n + 1, after[key].month, kind)
      ensures CellIn(kind)(after[key]) == 0.0
    {
      assert !Filled(raw, n, after[key].month, kind);
      if key == Label(g.month) {
        if key in rows {
          LabelInjective(rows[key].month, g.month);
        }
        assert raw[n].month == after[key].month;
        assert kind != g.kind;
      }
    }
  }

  lemma PivotStep(rows: map<string, TrendRow>, raw: seq<Group>, n: nat)
    requires n < |raw| && PivotSoFar(rows, raw, n)
    requires forall i, j :: 0 <= i < j < |raw| ==> raw[i].month != raw[j].month || raw[i].kind != raw[j].kind
    ensures PivotSoFar(Filling(rows, raw[n]), raw, n + 1)
  {
    hide Label, Filling, Titled, Earned, Placed, DefaultsKept;
    StillTitled(rows, raw, n);
    forall j | 0 <= j < n + 1 ensures Placed(Filling(rows, raw[n]), raw[j]) {
      if j < n {
        StillPlaced(rows, raw[j], raw[n]);
      } else {
        NowPlaced(rows, raw[n]);
      }
    }
    DefaultsStillKept(rows, raw, n);
  }

  method GetMonthlyTrend(db: Database, merchant: string, cal: Calendar) returns (df: seq<TrendRow>)
    ensures Shows(df, Restrict(db.txns, OfMerchant(merchant)), cal)
    ensures forall i, j :: 0 <= i < j < |df| ==>
              || df[i].month.year < df[j].month.year
              || (df[i].month.year == df[j].month.year && df[i].month.month < df[j].month.month)
  {
    hide Label, PivotSoFar, Restrict;
    var raw := GetMonthlySummary(db, merchant, cal);
    ghost var h := Restrict(db.txns, OfMerchant(merchant));
    var rows: map<string, TrendRow> := map[];
    EmptyPivot(raw);
    for i := 0 to |raw|
      invariant PivotSoFar(rows, raw, i)
    {
      var key := Label(raw[i].month);
      NeverOverwritten(rows, raw, i);
      PivotStep(rows, raw, i);
      if key !in rows {
        rows := rows[key := TrendRow(key, raw[i].month, 0.0, 0.0)];
      }
      assert CellIn(raw[i].kind)(rows[key]) == 0.0;
      rows := rows[key := Assign(rows[key], raw[i].kind, raw[i].total)];
    }
    var q := Sorted(rows.Keys, map key | key in rows :: Index(rows[key].month));
    df := seq(|q|, i requires 0 <= i < |q| && q[i] in rows => rows[q[i]]);
    PivotShows(df, q, rows, raw, h, cal);
    RowsAscend(df, h, cal);
  }

  lemma EmptyPivot(raw: seq<Group>)
    ensures PivotSoFar(map[], raw, 0)
  {
  }

  /** df holds the rows of the dictionary, sorted by month. */
  ghost predicate SortedRows(df: seq<TrendRow>, q: seq<string>, rows: map<string, TrendRow>) {
    && Enumerates(q, rows.Keys)
    && Ascending(q, map key | key in rows :: Index(rows[key].month))
    && |df| == |q|
    && forall i :: 0 <= i < |q| ==> df[i] == rows[q[i]]
  }

  lemma PivotOrder(df: seq<TrendRow>, q: seq<string>, rows: map<string, TrendRow>)
    requires Titled(rows) && SortedRows(df, q, rows)
    ensures forall i, j :: 0 <= i < j < |df| ==> Before(df[i].month, df[j].month)
    ensures forall i :: 0 <= i < |df| ==> df[i].title == Label(df[i].month)
  {
    hide Label;
    assert forall i :: 0 <= i < |q| ==> q[i] in rows;
    forall i, j | 0 <= i < j < |df| ensures Before(df[i].month, df[j].month) {
      IndexOrders(df[i].month, df[j].month);
    }
  }

  lemma PivotCovers(df: seq<TrendRow>, q: seq<string>, rows: map<string, TrendRow>, raw: seq<Group>,
                    h: History, cal: Calendar)
    requires Summarises(raw, h, cal) && PivotSoFar(rows, raw, |raw|) && SortedRows(df, q, rows)
    ensures forall k :: k in h ==> Shown(df, cal(h[k].date))
    ensures forall i :: 0 <= i < |df| ==> MonthUsed(h, cal, df[i].month)
  {
  }

  /** A cell of the finished dictionary carries its group's total, or its default. */
  lemma PivotCell(rows: map<string, TrendRow>, raw: seq<Group>, key: string, kind: Kind)
    requires Titled(rows) && DefaultsKept(rows, raw, |raw|) && key in rows
    requires forall j :: 0 <= j < |raw| ==> Placed(rows, raw[j])
    ensures !Filled(raw, |raw|, rows[key].month, kind) ==> CellIn(kind)(rows[key]) == 0.0
    ensures forall j :: 0 <= j < |raw| && raw[j].month == rows[key].month && raw[j].kind == kind ==>
              CellIn(kind)(rows[key]) == raw[j].total
  {
    hide Label;
    forall j | 0 <= j < |raw| && raw[j].month == rows[key].month ensures Label(raw[j].month) == key {}
  }

  lemma GroupedCell(raw: seq<Group>, h: History, cal: Calendar, month: Month, kind: Kind)
    requires Summarises(raw, h, cal)
    ensures !Filled(raw, |raw|, month, kind) ==> CellOf(h, cal, month, kind) == 0.0
    ensures Filled(raw, |raw|, month, kind) ==>
              exists j :: 0 <= j < |raw| && raw[j].month == month && raw[j].kind == kind
                          && raw[j].total == CellOf(h, cal, month, kind)
  {
    hide CellOf;
    if !Filled(raw, |raw|, month, kind) {
      forall k | k in h ensures Filled(raw, |raw|, cal(h[k].date), h[k].kind) {
        var j := GroupOf(raw, h, cal, k);
      }
      UnusedCell(h, cal, month, kind);
    }
  }

  lemma PivotShows(df: seq<TrendRow>, q: seq<string>, rows: map<string, TrendRow>, raw: seq<Group>,
                   h: History, cal: Calendar)
    requires Summarises(raw, h, cal) && PivotSoFar(rows, raw, |raw|) && SortedRows(df, q, rows)
    ensures Shows(df, h, cal)
  {
    hide Label, CellOf, Summarises, Titled, Earned, Placed, DefaultsKept, Filled, Shown, MonthUsed;
    PivotOrder(df, q, rows);
    PivotCovers(df, q, rows, raw, h, cal);
    forall i | 0 <= i < |df|
      ensures df[i].credit == CellOf(h, cal, df[i].month, Credit)
      ensures df[i].payment == CellOf(h, cal, df[i].month, Payment)
    {
      assert q[i] in rows;
      forall kind ensures CellIn(kind)(df[i]) == CellOf(h, cal, df[i].month, kind) {
        PivotCell(rows, raw, q[i], kind);
        GroupedCell(raw, h, cal, df[i].month, kind);
      }
      assert CellIn(Credit)(df[i]) == df[i].credit && CellIn(Payment)(df[i]) == df[i].payment;
    }
  }

  lemma GroupOf(raw: seq<Group>, h: History, cal: Calendar, k: Id) returns (j: nat)
    requires Summarises(raw, h, cal) && k in h
    ensures j < |raw| && raw[j].month == cal(h[k].date) && raw[j].kind == h[k].kind
  {
    hide CellOf;
    var i :| 0 <= i < |raw| && raw[i].month == cal(h[k].date) && raw[i].kind == h[k].kind;
    j := i;
  }

  // ---- The columns add up -----------------------------------------------------------------------------

  function MonthOf(cal: Calendar): Txn -> Month { (t: Txn) => cal(t.date) }

  lemma CellByLabel(h: History, cal: Calendar, month: Month, kind: Kind)
    ensures Restrict(Restrict(h, IsKind(kind)), Labelled(MonthOf(cal), month)) == Restrict(h, InCell(cal, month, kind))
  {
  }

  function MonthsOf(df: seq<TrendRow>, n: nat): set<Month>
    requires n <= |df|
  {
    set i | 0 <= i < n :: df[i].month
  }

  lemma MonthsGrow(df: seq<TrendRow>, h: History, cal: Calendar, n: nat)
    requires Shows(df, h, cal) && n < |df|
    ensures MonthsOf(df, n + 1) - {df[n].month} == MonthsOf(df, n)
    ensures df[n].month in MonthsOf(df, n + 1)
  {
  }

  lemma RowCell(df: seq<TrendRow>, h: History, cal: Calendar, kind: Kind, i: nat)
    requires Shows(df, h, cal) && i < |df|
    ensures CellIn(kind)(df[i])
         == Total(Restrict(Restrict(h, IsKind(kind)), Labelled(MonthOf(cal), df[i].month)), Amount)
  {
    hide Total, Restrict, Labelled, Label;
    CellByLabel(h, cal, df[i].month, kind);
    assert CellIn(kind)(df[i]) == CellOf(h, cal, df[i].month, kind);
  }

  lemma {:induction false} RowsAddUp(df: seq<TrendRow>, h: History, cal: Calendar, kind: Kind, n: nat)
    requires Shows(df, h, cal) && n <= |df|
    ensures Sum(df[..n], CellIn(kind))
         == Total(Restrict(Restrict(h, IsKind(kind)), LabelledIn(MonthOf(cal), MonthsOf(df, n))), Amount)
  {
    hide Total, Restrict, Labelled, LabelledIn, Shows;
    var part := Restrict(h, IsKind(kind));
    if n == 0 {
      assert MonthsOf(df, n) == {};
      GroupNone(part, MonthOf(cal), Amount);
    } else {
      var month := df[n - 1].month;
      RowsAddUp(df, h, cal, kind, n - 1);
      assert df[..n][..n - 1] == df[..n - 1];
      MonthsGrow(df, h, cal, n - 1);
      GroupStep(part, MonthOf(cal), Amount, MonthsOf(df, n), month);
      RowCell(df, h, cal, kind, n - 1);
    }
  }

  lemma EveryMonthShown(df: seq<TrendRow>, h: History, cal: Calendar, kind: Kind)
    requires Shows(df, h, cal)
    ensures Restrict(Restrict(h, IsKind(kind)), LabelledIn(MonthOf(cal), MonthsOf(df, |df|)))
         == Restrict(h, IsKind(kind))
  {
  }

  /** Each column of the trend adds up to the merchant's total of that kind. */
  lemma ColumnsAddUp(df: seq<TrendRow>, h: History, cal: Calendar, kind: Kind)
    requires Shows(df, h, cal)
    ensures Sum(df, CellIn(kind)) == SumOf(h, kind)
  {
    hide Total, Restrict, LabelledIn, Shows;
    RowsAddUp(df, h, cal, kind, |df|);
    assert df[..|df|] == df;
    EveryMonthShown(df, h, cal, kind);
  }

  // ---- Rows follow the clock -----------------------------------------------------------------------------

  /** The calendar never goes back. */
  ghost predicate Monotone(cal: Calendar) {
    forall d: int, e: int :: d <= e ==> !Before(cal(e), cal(d))
  }

  /** Every transaction counted in an earlier row is older than every one in a later row. */
  lemma RowsFollowTime(df: seq<TrendRow>, h: History, cal: Calendar, i: nat, j: nat, k: Id, l: Id)
    requires Shows(df, h, cal) && Monotone(cal)
    requires i < j < |df| && k in h && l in h
    requires cal(h[k].date) == df[i].month && cal(h[l].date) == df[j].month
    ensures h[k].date < h[l].date
  {
    RowsAscend(df, h, cal);
    assert Before(cal(h[k].date), cal(h[l].date));
  }

  /** So it is for the groups of different months. */
  lemma GroupsFollowTime(raw: seq<Group>, h: History, cal: Calendar, i: nat, j: nat, k: Id, l: Id)
    requires Summarises(raw, h, cal) && Monotone(cal)
    requires i < j < |raw| && raw[i].month != raw[j].month && k in h && l in h
    requires cal(h[k].date) == raw[i].month && cal(h[l].date) == raw[j].month
    ensures h[k].date < h[l].date
  {
    GroupsInOrder(raw, h, cal);
    assert Before(cal(h[k].date), cal(h[l].date));
  }

  // ---- The trend is determined by the transactions ------------------------------------------------------

  lemma MonthInBoth(a: seq<TrendRow>, b: seq<TrendRow>, h: History, cal: Calendar, i: nat) returns (j: nat)
    requires Shows(a, h, cal) && Shows(b, h, cal) && i < |a|
    ensures j < |b| && b[j].month == a[i].month
  {
    hide CellOf, Label;
    assert MonthUsed(h, cal, a[i].month);
    var k :| k in h && cal(h[k].date) == a[i].month;
    assert Shown(b, cal(h[k].date));
    j :| 0 <= j < |b| && b[j].month == a[i].month;
  }

  lemma {:induction false} SameMonths(a: seq<TrendRow>, b: seq<TrendRow>, h: History, cal: Calendar, n: nat)
    requires Shows(a, h, cal) && Shows(b, h, cal) && n <= |a|
    ensures n <= |b| && forall i :: 0 <= i < n ==> a[i].month == b[i].month
  {
    hide Shows;
    if n > 0 {
      SameMonths(a, b, h, cal, n - 1);
      var j := MonthInBoth(a, b, h, cal, n - 1);
      RowsAscend(a, h, cal);
      RowsAscend(b, h, cal);
      assert j >= n - 1;
      var i := MonthInBoth(b, a, h, cal, n - 1);
      assert i >= n - 1;
    }
  }

  lemma RowsAscend(df: seq<TrendRow>, h: History, cal: Calendar)
    requires Shows(df, h, cal)
    ensures forall i, j :: 0 <= i < j < |df| ==> Before(df[i].month, df[j].month)
  {
    hide CellOf, Label;
  }

  lemma SameRow(a: seq<TrendRow>, b: seq<TrendRow>, h: History, cal: Calendar, i: nat)
    requires Shows(a, h, cal) && Shows(b, h, cal)
    requires i < |a| && i < |b| && a[i].month == b[i].month
    ensures a[i] == b[i]
  {
    hide CellOf, Label;
  }

  /** There is one trend for a set of transactions and a calendar. */
  lemma TrendUnique(a: seq<TrendRow>, b: seq<TrendRow>, h: History, cal: Calendar)
    requires Shows(a, h, cal) && Shows(b, h, cal)
    ensures a == b
  {
    hide Shows;
    SameMonths(a, b, h, cal, |a|);
    SameMonths(b, a, h, cal, |b|);
    forall i | 0 <= i < |a| ensures a[i] == b[i] {
      SameRow(a, b, h, cal, i);
    }
  }
}

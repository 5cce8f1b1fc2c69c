// The NovaManager back end's read-only reports: the dashboard of the current
// month, the expense documents of a month and the monthly cost summary.
// Rows are given as sequences in table order; the SQL filters become
// left-to-right filters over them.
module NovaReports {
  import opened Prelude
  import opened NovaTables
  import opened NovaLedger

  // ------------------------------------------------------------ month windows

  /** The half-open interval `[start, end)` a report filters dates by. */
  datatype Window = Window(start: DateTime, end: DateTime)

  predicate InWindow(w: Window, d: DateTime)
  {
    DateLe(w.start, d) && DateLt(d, w.end)
  }

  /** Python's `datetime` accepts years 1 to 9999 only. */
  predicate PythonYear(y: int)
  {
    1 <= y <= 9999
  }

  /**
   * `datetime(year, month, 1)` and the first day of the next month (January
   * of the next year after December); `None` where either constructor raises.
   */
  function MonthWindow(year: int, month: int): Option<Window>
  {
    if !PythonYear(year) || !(1 <= month <= 12) then None
    else if month == 12 then
      (if PythonYear(year + 1) then Some(Window(DateTime(year, month, 1, 0), DateTime(year + 1, 1, 1, 0))) else None)
    else Some(Window(DateTime(year, month, 1, 0), DateTime(year, month + 1, 1, 0)))
  }

  /** A real date lies in a month's window exactly when it falls in that month. */
  lemma MonthWindowMembership(year: int, month: int, d: DateTime)
    requires MonthWindow(year, month).Some? && ValidDate(d)
    ensures InWindow(MonthWindow(year, month).value, d) <==> d.year == year && d.month == month
  {
    var w := MonthWindow(year, month).value;
    assert w.start == DateTime(year, month, 1, 0);
    if d.year == year && d.month == month {
      assert 1 <= d.day;
      assert DateLe(w.start, d);
      assert DateLt(d, w.end);
    }
  }

  // ---------------------------------------------------------------- dashboard

  /** One entry of `chart_data`. */
  datatype DayBucket = DayBucket(day: int, income: real, expense: real)

  /** The dashboard's answer; `month` is the number behind `strftime("%B")`. */
  datatype Dashboard = Dashboard(income: real, expenses: real, balance: real, month: int, chart: seq<DayBucket>)

  function MonthStart(now: DateTime): DateTime
  {
    DateTime(now.year, now.month, 1, 0)
  }

  /** `date >= start`, the only bound the dashboard's query puts on dates. */
  function TxSince(txs: seq<Transaction>, start: DateTime): seq<Transaction>
  {
    if txs == [] then []
    else TxSince(txs[..|txs| - 1], start) + (if DateLe(start, txs[|txs| - 1].date) then [txs[|txs| - 1]] else [])
  }

  /** The transactions dated in the given calendar month. */
  function TxInMonth(txs: seq<Transaction>, year: int, month: int): seq<Transaction>
  {
    if txs == [] then []
    else
      var t := txs[|txs| - 1];
      TxInMonth(txs[..|txs| - 1], year, month) + (if t.date.year == year && t.date.month == month then [t] else [])
  }

  /** `sum(t.amount for t in txs if t.type == kind)`. */
  function KindTotal(txs: seq<Transaction>, kind: TxType): real
  {
    if txs == [] then 0.0
    else
      var t := txs[|txs| - 1];
      KindTotal(txs[..|txs| - 1], kind) + (if t.kind == kind then t.amount else 0.0)
  }

  /** What the chart accumulates for one day of the month and one kind. */
  function DayTotal(txs: seq<Transaction>, day: int, kind: TxType): real
  {
    if txs == [] then 0.0
    else
      var t := txs[|txs| - 1];
      DayTotal(txs[..|txs| - 1], day, kind) + (if t.kind == kind && t.date.day == day then t.amount else 0.0)
  }

  /** Every transaction's day is a key of the chart dictionary `1..n`. */
  predicate DaysFit(txs: seq<Transaction>, n: int)
  {
    forall j :: 0 <= j < |txs| ==> 1 <= txs[j].date.day <= n
  }

  /** The chart of days `1..n`, in day order. */
  function Chart(txs: seq<Transaction>, n: nat): seq<DayBucket>
  {
    seq(n, i => DayBucket(i + 1, DayTotal(txs, i + 1, Income), DayTotal(txs, i + 1, Expense)))
  }

  /** One column of a chart, added up. */
  function ChartTotal(chart: seq<DayBucket>, kind: TxType): real
  {
    if chart == [] then 0.0
    else
      var b := chart[|chart| - 1];
      ChartTotal(chart[..|chart| - 1], kind) + (if kind == Income then b.income else b.expense)
  }

  /** `DayTotal` added up over days `1..n`. */
  function SumDays(txs: seq<Transaction>, n: nat, kind: TxType): real
  {
    if n == 0 then 0.0 else SumDays(txs, n - 1, kind) + DayTotal(txs, n, kind)
  }

  lemma {:induction false} ChartTotalIsSumDays(txs: seq<Transaction>, n: nat, kind: TxType)
    ensures ChartTotal(Chart(txs, n), kind) == SumDays(txs, n, kind)
    decreases n
  {
    if n > 0 {
      assert Chart(txs, n)[..n - 1] == Chart(txs, n - 1);
      ChartTotalIsSumDays(txs, n - 1, kind);
    }
  }

  /** Appending a transaction adds its amount to exactly the day it falls on. */
  lemma {:induction false} SumDaysSnoc(txs: seq<Transaction>, t: Transaction, n: nat, kind: TxType)
    ensures SumDays(txs + [t], n, kind)
         == SumDays(txs, n, kind) + (if t.kind == kind && 1 <= t.date.day <= n then t.amount else 0.0)
    decreases n
  {
    assert (txs + [t])[..|txs + [t]| - 1] == txs;
    if n > 0 {
      SumDaysSnoc(txs, t, n - 1, kind);
    }
  }

  lemma {:induction false} SumDaysIsKindTotal(txs: seq<Transaction>, n: nat, kind: TxType)
    requires DaysFit(txs, n)
    ensures SumDays(txs, n, kind) == KindTotal(txs, kind)
    decreases |txs|
  {
    if txs == [] {
      if n > 0 {
        SumDaysOfNothing(n, kind);
      }
    } else {
      var init, t := txs[..|txs| - 1], txs[|txs| - 1];
      assert txs == init + [t];
      SumDaysIsKindTotal(init, n, kind);
      SumDaysSnoc(init, t, n, kind);
    }
  }

  lemma {:induction false} SumDaysOfNothing(n: nat, kind: TxType)
    ensures SumDays([], n, kind) == 0.0
    decreases n
  {
    if n > 0 {
      SumDaysOfNothing(n - 1, kind);
    }
  }

  /**
   * When every day is a key of the chart, each column of the chart adds up
   * to the corresponding total of the dashboard.
   */
  lemma ChartMatchesTotals(txs: seq<Transaction>, n: nat, kind: TxType)
    requires DaysFit(txs, n)
    ensures ChartTotal(Chart(txs, n), kind) == KindTotal(txs, kind)
  {
    ChartTotalIsSumDays(txs, n, kind);
    SumDaysIsKindTotal(txs, n, kind);
  }

  /**
   * The chart loop: a dictionary of days `1..n` starting at zero, each
   * transaction added to its day's income or expense; a day that is not a
   * key raises `KeyError` (`None`, a status 500).
   */
  method BucketByDay(txs: seq<Transaction>, n: nat) returns (r: Option<seq<DayBucket>>)
    ensures r.None? <==> !DaysFit(txs, n)
    ensures r.Some? ==> r.value == Chart(txs, n)
  {
    var daily: map<int, DayBucket> := map d | 1 <= d <= n :: DayBucket(d, 0.0, 0.0);
    var i := 0;
    while i < |txs|
      invariant 0 <= i <= |txs|
      invariant DaysFit(txs[..i], n)
      invariant forall d :: d in daily <==> 1 <= d <= n
      invariant forall d :: 1 <= d <= n ==>
        daily[d] == DayBucket(d, DayTotal(txs[..i], d, Income), DayTotal(txs[..i], d, Expense))
    {
      var t := txs[i];
      var day := t.date.day;
      if day !in daily {
        return None;
      }
      var b := daily[day];
      if t.kind == Income {
        daily := daily[day := b.(income := b.income + t.amount)];
      } else {
        daily := daily[day := b.(expense := b.expense + t.amount)];
      }
      assert txs[..i + 1][..i] == txs[..i];
      i := i + 1;
    }
    assert txs[..i] == txs;
    r := Some(seq(n, j requires 0 <= j < n => daily[j + 1]));
  }

  /**
   * `dashboard_stats` as written: the query keeps every transaction dated on
   * or after the first of the current month, with no end, so a transaction
   * dated in a later month is counted in this month's totals, and one whose
   * day is past the end of the current month is not a key of the chart.
   */
  method DashboardStatsAsWritten(txs: seq<Transaction>, now: DateTime) returns (r: Option<Dashboard>)
    ensures var sel := TxSince(txs, MonthStart(now));
      r.None? <==> !DaysFit(sel, DaysInMonth(now.year, now.month))
    ensures var sel := TxSince(txs, MonthStart(now));
      r.Some? ==> (r.value.income == KindTotal(sel, Income) && r.value.expenses == KindTotal(sel, Expense)
        && r.value.balance == r.value.income - r.value.expenses
        && r.value.chart == Chart(sel, DaysInMonth(now.year, now.month)))
  {
    var sel := TxSince(txs, MonthStart(now));
    var income := KindTotal(sel, Income);
    var expenses := KindTotal(sel, Expense);
    var chart := BucketByDay(sel, DaysInMonth(now.year, now.month));
    if chart.None? {
      return None;
    }
    r := Some(Dashboard(income, expenses, income - expenses, now.month, chart.value));
  }

  /** 10 February 2026, noon. */
  function FebruaryNoon(): DateTime
  {
    DateTime(2026, 2, 10, 43200)
  }

  /** An income already dated on the given day of March 2026. */
  function MarchSale(day: int): Transaction
  {
    Transaction(100.0, Income, "Venta de Productos", false, DateTime(2026, 3, day, 0), Wage("Ana", false))
  }

  /**
   * On 10 February 2026 a sale already dated 31 March 2026 passes the
   * dashboard's filter, and 31 is not a day of February: the dashboard fails.
   */
  lemma FutureDayBreaksDashboard()
    ensures ValidDate(FebruaryNoon()) && ValidDate(MarchSale(31).date)
    ensures !DaysFit(TxSince([MarchSale(31)], MonthStart(FebruaryNoon())), DaysInMonth(2026, 2))
  {
    var sel := TxSince([MarchSale(31)], MonthStart(FebruaryNoon()));
    assert [MarchSale(31)][..0] == [];
    assert sel == [MarchSale(31)];
    assert DaysInMonth(2026, 2) == 28;
    assert sel[0].date.day == 31;
  }

  /**
   * On 10 February 2026 a sale dated 5 March 2026 is counted in February's
   * income, although it is not a February transaction.
   */
  lemma FutureSaleCountedThisMonth()
    ensures ValidDate(MarchSale(5).date)
    ensures KindTotal(TxSince([MarchSale(5)], MonthStart(FebruaryNoon())), Income) == 100.0
    ensures KindTotal(TxInMonth([MarchSale(5)], 2026, 2), Income) == 0.0
  {
    assert [MarchSale(5)][..0] == [];
    assert TxSince([MarchSale(5)], MonthStart(FebruaryNoon())) == [MarchSale(5)];
    assert TxInMonth([MarchSale(5)], 2026, 2) == [];
  }

  lemma {:induction false} TxInMonthFits(txs: seq<Transaction>, year: int, month: int)
    requires forall j :: 0 <= j < |txs| ==> ValidDate(txs[j].date)
    ensures DaysFit(TxInMonth(txs, year, month), DaysInMonth(year, month))
    decreases |txs|
  {
    if txs != [] {
      TxInMonthFits(txs[..|txs| - 1], year, month);
    }
  }

  /** A transaction is kept exactly when it is dated in the month. */
  lemma {:induction false} TxInMonthMembers(txs: seq<Transaction>, year: int, month: int, t: Transaction)
    ensures t in TxInMonth(txs, year, month) <==> t in txs && t.date.year == year && t.date.month == month
    decreases |txs|
  {
    if txs != [] {
      var init := txs[..|txs| - 1];
      assert txs == init + [txs[|txs| - 1]];
      TxInMonthMembers(init, year, month, t);
    }
  }

  /**
   * `dashboard_stats` bounded to the current month, as its comment says it
   * is: it never fails, its totals count only this month's transactions,
   * and each chart column adds up to the matching total.
   */
  method DashboardStats(txs: seq<Transaction>, now: DateTime) returns (r: Dashboard)
    requires forall j :: 0 <= j < |txs| ==> ValidDate(txs[j].date)
    ensures var sel := TxInMonth(txs, now.year, now.month);
      r.income == KindTotal(sel, Income) && r.expenses == KindTotal(sel, Expense)
      && r.balance == r.income - r.expenses && r.month == now.month
      && r.chart == Chart(sel, DaysInMonth(now.year, now.month))
    ensures |r.chart| == DaysInMonth(now.year, now.month)
    ensures ChartTotal(r.chart, Income) == r.income && ChartTotal(r.chart, Expense) == r.expenses
  {
    var sel := TxInMonth(txs, now.year, now.month);
    var n := DaysInMonth(now.year, now.month);
    TxInMonthFits(txs, now.year, now.month);
    var chart := BucketByDay(sel, n);
    assert chart.Some?;
    ChartMatchesTotals(sel, n, Income);
    ChartMatchesTotals(sel, n, Expense);
    var income := KindTotal(sel, Income);
    var expenses := KindTotal(sel, Expense);
    r := Dashboard(income, expenses, income - expenses, now.month, chart.value);
  }

  // ----------------------------------------------------------------- expenses

  /** Python truthiness of an optional integer query parameter. */
  predicate Truthy(p: Option<int>)
  {
    p.Some? && p.value != 0
  }

  function DocsIn(docs: seq<ExpenseDocument>, w: Window): seq<ExpenseDocument>
  {
    if docs == [] then []
    else
      var x := docs[|docs| - 1];
      DocsIn(docs[..|docs| - 1], w) + (if InWindow(w, x.date) then [x] else [])
  }

  lemma {:induction false} DocsInMembers(docs: seq<ExpenseDocument>, w: Window, x: ExpenseDocument)
    ensures x in DocsIn(docs, w) <==> x in docs && InWindow(w, x.date)
    decreases |docs|
  {
    if docs != [] {
      var init := docs[..|docs| - 1];
      assert docs == init + [docs[|docs| - 1]];
      DocsInMembers(init, w, x);
    }
  }

  /**
   * `GET /expenses`: with both `month` and `year` truthy, the documents dated
   * in that month's window (status 500 when the window cannot be built);
   * otherwise every document.
   */
  function GetExpenses(docs: seq<ExpenseDocument>, month: Option<int>, year: Option<int>): Reply<seq<ExpenseDocument>>
  {
    if Truthy(month) && Truthy(year) then
      match MonthWindow(year.value, month.value)
      case None => Fail(ServerError)
      case Some(w) => Ok(DocsIn(docs, w))
    else Ok(docs)
  }

  /**
   * The listing holds, of the stored documents, exactly those dated in the
   * requested month, and all of them when the filter is not given.
   */
  lemma GetExpensesSpec(docs: seq<ExpenseDocument>, month: Option<int>, year: Option<int>, x: ExpenseDocument)
    requires ValidDate(x.date)
    ensures !(Truthy(month) && Truthy(year)) ==> GetExpenses(docs, month, year) == Ok(docs)
    ensures Truthy(month) && Truthy(year) ==>
      (GetExpenses(docs, month, year).Fail? <==> MonthWindow(year.value, month.value).None?)
    ensures Truthy(month) && Truthy(year) && GetExpenses(docs, month, year).Ok? ==>
      (x in GetExpenses(docs, month, year).value <==>
        x in docs && x.date.year == year.value && x.date.month == month.value)
  {
    if Truthy(month) && Truthy(year) && MonthWindow(year.value, month.value).Some? {
      var w := MonthWindow(year.value, month.value).value;
      DocsInMembers(docs, w, x);
      MonthWindowMembership(year.value, month.value, x.date);
    }
  }

  // ------------------------------------------------------------- cost summary

  /** The answer of `GET /finances/summary`; `period` is `f"{month}/{year}"`. */
  datatype CostSummary = CostSummary(month: int, year: int, laborCost: real, expenseCost: real, totalCost: real)

  /** `total_earned` of a trip's assignments, added up. */
  function Earned(es: seq<TripEmployee>): real
  {
    if es == [] then 0.0 else Earned(es[..|es| - 1]) + es[|es| - 1].totalEarned
  }

  /** `SUM(total_earned)` over the assignments of closed trips dated in the window. */
  function LaborCost(trips: seq<WorkTrip>, w: Window): real
  {
    if trips == [] then 0.0
    else
      var t := trips[|trips| - 1];
      LaborCost(trips[..|trips| - 1], w) + (if t.status == Closed && InWindow(w, t.date) then Earned(t.assignments) else 0.0)
  }

  /** `SUM(amount)` over the documents dated in the window. */
  function ExpenseCost(docs: seq<ExpenseDocument>, w: Window): real
  {
    if docs == [] then 0.0
    else
      var x := docs[|docs| - 1];
      ExpenseCost(docs[..|docs| - 1], w) + (if InWindow(w, x.date) then x.amount else 0.0)
  }

  /** Plain total of a list of documents. */
  function DocTotal(docs: seq<ExpenseDocument>): real
  {
    if docs == [] then 0.0 else DocTotal(docs[..|docs| - 1]) + docs[|docs| - 1].amount
  }

  /**
   * `get_financial_summary`: the requested month, or the month of `now` when
   * either parameter is missing or zero; status 500 when the window cannot be
   * built. `SUM` of no rows is NULL and `or 0.0` turns it into 0.0, which is
   * what the empty sums below give.
   */
  function FinancialSummary(trips: seq<WorkTrip>, docs: seq<ExpenseDocument>,
                            month: Option<int>, year: Option<int>, now: DateTime): Reply<CostSummary>
  {
    var m := if Truthy(month) && Truthy(year) then month.value else now.month;
    var y := if Truthy(month) && Truthy(year) then year.value else now.year;
    match MonthWindow(y, m)
    case None => Fail(ServerError)
    case Some(w) =>
      var labor := LaborCost(trips, w);
      var expense := ExpenseCost(docs, w);
      Ok(CostSummary(m, y, labor, expense, labor + expense))
  }

  lemma {:induction false} ExpenseCostIsListingTotal(docs: seq<ExpenseDocument>, w: Window)
    ensures ExpenseCost(docs, w) == DocTotal(DocsIn(docs, w))
    decreases |docs|
  {
    if docs != [] {
      var init, x := docs[..|docs| - 1], docs[|docs| - 1];
      ExpenseCostIsListingTotal(init, w);
      var rest := DocsIn(init, w);
      if InWindow(w, x.date) {
        assert (rest + [x])[..|rest + [x]| - 1] == rest;
      } else {
        assert rest + [] == rest;
      }
    }
  }

  /**
   * For an explicit month the summary's expense cost is the total of what
   * `GET /expenses` lists for that month, and both fail together.
   */
  lemma SummaryMatchesExpenses(trips: seq<WorkTrip>, docs: seq<ExpenseDocument>, month: Option<int>, year: Option<int>, now: DateTime)
    requires Truthy(month) && Truthy(year)
    ensures FinancialSummary(trips, docs, month, year, now).Ok? <==> GetExpenses(docs, month, year).Ok?
    ensures FinancialSummary(trips, docs, month, year, now).Ok? ==>
      FinancialSummary(trips, docs, month, year, now).value.expenseCost == DocTotal(GetExpenses(docs, month, year).value)
  {
    if MonthWindow(year.value, month.value).Some? {
      ExpenseCostIsListingTotal(docs, MonthWindow(year.value, month.value).value);
    }
  }

  /** A trip that is still open adds nothing to the labour cost. */
  lemma OpenTripCostsNothing(trips: seq<WorkTrip>, t: WorkTrip, w: Window)
    requires t.status == Open
    ensures LaborCost(trips + [t], w) == LaborCost(trips, w)
  {
    assert (trips + [t])[..|trips + [t]| - 1] == trips;
  }

  /**
   * Closing an open trip dated in the window raises the month's labour cost
   * by exactly what its assignments earned, whatever other trips there are.
   */
  lemma {:induction false} ClosingTripAddsEarnings(trips: seq<WorkTrip>, i: nat, w: Window)
    requires i < |trips| && trips[i].status == Open && InWindow(w, trips[i].date)
    ensures LaborCost(trips[i := trips[i].(status := Closed)], w) == LaborCost(trips, w) + Earned(trips[i].assignments)
    decreases |trips|
  {
    var closed := trips[i := trips[i].(status := Closed)];
    var n := |trips|;
    if i == n - 1 {
      assert closed[..n - 1] == trips[..n - 1];
    } else {
      assert closed[..n - 1] == trips[..n - 1][i := trips[i].(status := Closed)];
      ClosingTripAddsEarnings(trips[..n - 1], i, w);
    }
  }
}

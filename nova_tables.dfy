// The NovaManager back end's tables (the SQLAlchemy models) and the pure
// rules its endpoints apply to them: unit cost, stock withdrawal, the meter
// price read from the configuration, oldest-first settlement of salary
// advances, the attendance upsert, and the per-material and per-assignment
// updates of a work trip.
module NovaTables {
  import opened Prelude

  /** A `datetime`: calendar date plus the second of the day. */
  datatype DateTime = DateTime(year: int, month: int, day: int, seconds: int)

  predicate IsLeapYear(y: int)
  {
    (y % 4 == 0 && y % 100 != 0) || y % 400 == 0
  }

  /** `calendar.monthrange(y, m)[1]`. */
  function DaysInMonth(y: int, m: int): (n: int)
    ensures 28 <= n <= 31
  {
    if m == 2 then (if IsLeapYear(y) then 29 else 28)
    else if m == 4 || m == 6 || m == 9 || m == 11 then 30
    else 31
  }

  /** The values a Python `datetime` can hold. */
  predicate ValidDate(d: DateTime)
  {
    1 <= d.month <= 12 && 1 <= d.day <= DaysInMonth(d.year, d.month) && 0 <= d.seconds < 86400
  }

  /** Chronological order: `a < b`. */
  predicate DateLt(a: DateTime, b: DateTime)
  {
    a.year < b.year
    || (a.year == b.year && (a.month < b.month
    || (a.month == b.month && (a.day < b.day
    || (a.day == b.day && a.seconds < b.seconds)))))
  }

  predicate DateLe(a: DateTime, b: DateTime)
  {
    !DateLt(b, a)
  }

  predicate SameDay(a: DateTime, b: DateTime)
  {
    a.year == b.year && a.month == b.month && a.day == b.day
  }

  datatype TxType = Income | Expense

  /** What the back end writes into a transaction's description. */
  datatype TxNote =
    | StockPurchase(itemName: string)
    | StockSale(itemName: string, work: string)
    | Wage(employeeName: string, compensated: bool)
    | AdvanceNote(employeeName: string, text: Option<string>)

  datatype Transaction = Transaction(amount: real, kind: TxType, category: string, isInvoiced: bool, date: DateTime, note: TxNote)

  datatype StockStatus = Available | Depleted

  datatype StockItem = StockItem(
    name: string, costAmount: real, initialQuantity: real, quantity: real,
    unitCost: real, status: StockStatus, purchaseTxId: int)

  datatype MaterialUsage = MaterialUsage(
    stockItemId: int, employeeId: Option<int>, quantity: real, description: string,
    salePriceTotal: Option<real>, saleTxId: Option<int>)

  datatype Employee = Employee(name: string, groupId: Option<int>)

  datatype Advance = Advance(employeeId: int, amount: real, date: DateTime, description: string, isSettled: bool, transactionId: int)

  datatype PayrollRecord = PayrollRecord(employeeId: int, meters: real, totalAmount: real, date: DateTime, isPaid: bool, transactionId: int)

  /** The `meter_price` row of `system_config`: missing, a number, or text `float()` rejects (including ""). */
  datatype ConfigValue = Absent | Number(value: real) | Malformed

  datatype TripStatus = Open | Closed

  datatype TripEmployee = TripEmployee(id: int, employeeId: int, isPresent: bool, metersDone: real, historicalPrice: real, totalEarned: real)

  datatype TripMaterial = TripMaterial(id: int, stockItemId: int, quantityOut: real, quantityReturned: real, quantityUsed: real)

  datatype WorkTrip = WorkTrip(
    date: DateTime, description: string, status: TripStatus, vehicleId: Option<int>,
    assignments: seq<TripEmployee>, materials: seq<TripMaterial>)

  datatype AttendanceRecord = AttendanceRecord(employeeId: int, isPresent: bool, date: DateTime)

  datatype Vehicle = Vehicle(
    name: string, plate: string, kind: string, status: string,
    lastServiceDate: Option<DateTime>, nextServiceKm: Option<real>, currentKm: Option<real>)

  datatype ExpenseDocument = ExpenseDocument(amount: real, date: DateTime)

  // ------------------------------------------------------------------ stock

  /** `cost_amount / initial_quantity`, or 0 for a batch of no units. */
  function UnitCost(cost: real, initialQuantity: real): (u: real)
    ensures initialQuantity > 0.0 ==> u * initialQuantity == cost
    ensures initialQuantity <= 0.0 ==> u == 0.0
  {
    if initialQuantity > 0.0 then cost / initialQuantity else 0.0
  }

  /** The item after `qty` units leave it: DEPLETED once nothing is left, the status kept otherwise. */
  function Withdraw(item: StockItem, qty: real): (r: StockItem)
    ensures r.quantity == item.quantity - qty
    ensures r.quantity <= 0.0 ==> r.status == Depleted
    ensures r.quantity > 0.0 ==> r.status == item.status
    ensures r.name == item.name && r.costAmount == item.costAmount && r.initialQuantity == item.initialQuantity
    ensures r.unitCost == item.unitCost && r.purchaseTxId == item.purchaseTxId
  {
    var left := item.quantity - qty;
    item.(quantity := left, status := if left <= 0.0 then Depleted else item.status)
  }

  /** No withdrawal makes a DEPLETED item AVAILABLE again. */
  lemma WithdrawNeverRevives(item: StockItem, qty: real)
    requires item.status == Depleted
    ensures Withdraw(item, qty).status == Depleted
  {
  }

  /** Two withdrawals in a row amount to one of the combined quantity. */
  lemma WithdrawTwice(item: StockItem, a: real, b: real)
    requires b >= 0.0
    ensures Withdraw(Withdraw(item, a), b) == Withdraw(item, a + b)
  {
  }

  // ------------------------------------------------------------ meter price

  /** The price `add_payroll_record` and `create_work_trip` use: the `try`/`except ValueError` reading. */
  function PayrollPrice(c: ConfigValue): real
  {
    if c.Number? then c.value else 0.0
  }

  /** `meters * current_price`: the gross of a payroll record. */
  function GrossPay(meters: real, c: ConfigValue): real
  {
    meters * PayrollPrice(c)
  }

  /** The price `close_work_trip` and `update_trip_progress` use: `float(value)` with no handler, so bad text is an error. */
  function ClosePrice(c: ConfigValue): Option<real>
  {
    match c
    case Absent => Some(0.0)
    case Number(v) => Some(v)
    case Malformed => None
  }

  /** The two readings agree except on malformed text, where only one of them fails. */
  lemma PriceReadings(c: ConfigValue)
    ensures ClosePrice(c).Some? ==> ClosePrice(c).value == PayrollPrice(c)
    ensures ClosePrice(c).None? <==> c == Malformed
  {
  }

  // --------------------------------------------------------------- advances

  /** Indices of an employee's unsettled advances, in table order. */
  function PendingOf(adv: seq<Advance>, emp: int): (r: seq<nat>)
    ensures forall i :: 0 <= i < |r| ==> r[i] < |adv| && adv[r[i]].employeeId == emp && !adv[r[i]].isSettled
    ensures forall j :: 0 <= j < |adv| && adv[j].employeeId == emp && !adv[j].isSettled ==> j in r
    decreases |adv|
  {
    if adv == [] then []
    else
      var last := |adv| - 1;
      PendingOf(adv[..last], emp) + (if adv[last].employeeId == emp && !adv[last].isSettled then [last] else [])
  }

  predicate InRange(adv: seq<Advance>, s: seq<nat>)
  {
    forall i :: 0 <= i < |s| ==> s[i] < |adv|
  }

  /** Oldest first. */
  predicate SortedByDate(adv: seq<Advance>, s: seq<nat>)
    requires InRange(adv, s)
  {
    forall i, j :: 0 <= i < j < |s| ==> DateLe(adv[s[i]].date, adv[s[j]].date)
  }

  /** Insert `x` after every entry whose date is not later than its own (a stable insertion). */
  function InsertByDate(adv: seq<Advance>, x: nat, s: seq<nat>): (r: seq<nat>)
    requires x < |adv| && InRange(adv, s)
    ensures InRange(adv, r) && |r| == |s| + 1
    decreases |s|
  {
    if s == [] then [x]
    else if DateLt(adv[x].date, adv[s[0]].date) then [x] + s
    else
      assert s == [s[0]] + s[1..];
      [s[0]] + InsertByDate(adv, x, s[1..])
  }

  /** The insertion adds `x` and loses nothing. */
  lemma {:induction false} InsertByDatePermutes(adv: seq<Advance>, x: nat, s: seq<nat>)
    requires x < |adv| && InRange(adv, s)
    ensures multiset(InsertByDate(adv, x, s)) == multiset(s) + multiset{x}
    decreases |s|
  {
    if s != [] && !DateLt(adv[x].date, adv[s[0]].date) {
      InsertByDatePermutes(adv, x, s[1..]);
      assert s == [s[0]] + s[1..];
    }
  }

  lemma {:induction false} InsertByDateSorted(adv: seq<Advance>, x: nat, s: seq<nat>)
    requires x < |adv| && InRange(adv, s) && SortedByDate(adv, s)
    ensures SortedByDate(adv, InsertByDate(adv, x, s))
    decreases |s|
  {
    if s != [] && !DateLt(adv[x].date, adv[s[0]].date) {
      var rest := InsertByDate(adv, x, s[1..]);
      InsertByDateSorted(adv, x, s[1..]);
      InsertByDatePermutes(adv, x, s[1..]);
      var r := [s[0]] + rest;
      forall j | 0 <= j < |rest| ensures DateLe(adv[s[0]].date, adv[rest[j]].date) {
        assert rest[j] in multiset(rest);
        assert rest[j] in multiset(s[1..]) + multiset{x};
        if rest[j] != x {
          assert rest[j] in s[1..];
          var k :| 0 <= k < |s[1..]| && s[1..][k] == rest[j];
          assert s[k + 1] == rest[j];
        }
      }
      forall i, j | 0 <= i < j < |r| ensures DateLe(adv[r[i]].date, adv[r[j]].date) {
        if i > 0 {
          assert r[i] == rest[i - 1] && r[j] == rest[j - 1];
        } else {
          assert r[j] == rest[j - 1];
        }
      }
    }
  }

  /** `sorted(pending, key=lambda a: a.date)`, as an insertion sort. */
  function SortByDate(adv: seq<Advance>, s: seq<nat>): (r: seq<nat>)
    requires InRange(adv, s)
    ensures InRange(adv, r) && |r| == |s|
    decreases |s|
  {
    if s == [] then []
    else
      var front := s[..|s| - 1];
      assert s == front + [s[|s| - 1]];
      InsertByDate(adv, s[|s| - 1], SortByDate(adv, front))
  }

  /** The sort is a permutation of its input. */
  lemma {:induction false} SortByDatePermutes(adv: seq<Advance>, s: seq<nat>)
    requires InRange(adv, s)
    ensures multiset(SortByDate(adv, s)) == multiset(s)
    decreases |s|
  {
    if s != [] {
      var front := s[..|s| - 1];
      SortByDatePermutes(adv, front);
      InsertByDatePermutes(adv, s[|s| - 1], SortByDate(adv, front));
      assert s == front + [s[|s| - 1]];
    }
  }

  lemma {:induction false} SortByDateSorted(adv: seq<Advance>, s: seq<nat>)
    requires InRange(adv, s)
    ensures SortedByDate(adv, SortByDate(adv, s))
    decreases |s|
  {
    if s != [] {
      SortByDateSorted(adv, s[..|s| - 1]);
      InsertByDateSorted(adv, s[|s| - 1], SortByDate(adv, s[..|s| - 1]));
    }
  }

  /** `sorted([a for a in emp.advances if not a.is_settled], key=date)`. */
  function PendingByDate(adv: seq<Advance>, emp: int): (r: seq<nat>)
    ensures InRange(adv, r)
  {
    SortByDate(adv, PendingOf(adv, emp))
  }

  /** The pending list holds exactly the employee's unsettled advances, oldest first. */
  lemma PendingByDateSpec(adv: seq<Advance>, emp: int)
    ensures var r := PendingByDate(adv, emp);
      SortedByDate(adv, r)
      && (forall j :: 0 <= j < |adv| ==> (j in r <==> adv[j].employeeId == emp && !adv[j].isSettled))
  {
    var p := PendingOf(adv, emp);
    var r := PendingByDate(adv, emp);
    SortByDateSorted(adv, p);
    SortByDatePermutes(adv, p);
    forall j | 0 <= j < |adv| ensures j in r <==> adv[j].employeeId == emp && !adv[j].isSettled {
      assert j in r <==> j in multiset(r);
      assert j in p <==> j in multiset(p);
    }
  }

  function Amounts(adv: seq<Advance>, s: seq<nat>): (r: seq<real>)
    requires InRange(adv, s)
    ensures |r| == |s| && forall i :: 0 <= i < |s| ==> r[i] == adv[s[i]].amount
  {
    seq(|s|, i requires 0 <= i < |s| => adv[s[i]].amount)
  }

  /**
   * How many advances the payroll loop settles: walking oldest first, each
   * one is settled while the running gross covers it, and the walk stops at
   * the first one it does not cover.
   */
  function GreedyCount(amounts: seq<real>, budget: real): (k: nat)
    ensures k <= |amounts|
    decreases |amounts|
  {
    if amounts == [] || budget < amounts[0] then 0
    else 1 + GreedyCount(amounts[1..], budget - amounts[0])
  }

  /** One step of the walk, from position i of the pending amounts. */
  lemma GreedyCountStep(amounts: seq<real>, i: nat, budget: real)
    requires i < |amounts|
    ensures budget < amounts[i] ==> GreedyCount(amounts[i..], budget) == 0
    ensures budget >= amounts[i] ==> GreedyCount(amounts[i..], budget) == 1 + GreedyCount(amounts[i + 1..], budget - amounts[i])
  {
    assert amounts[i..][0] == amounts[i];
    assert amounts[i..][1..] == amounts[i + 1..];
  }

  lemma SumCons(x: real, s: seq<real>)
    ensures Sum([x] + s) == x + Sum(s)
  {
    SumAppend([x], s);
    assert [x][..0] == [];
  }

  /**
   * The settled advances add up to no more than the gross, and when the walk
   * stops early, the first unsettled advance is more than what is left.
   */
  lemma {:induction false} GreedyCountSpec(amounts: seq<real>, budget: real)
    requires budget >= 0.0
    ensures var k := GreedyCount(amounts, budget);
      Sum(amounts[..k]) <= budget
      && (k < |amounts| ==> budget - Sum(amounts[..k]) < amounts[k])
    decreases |amounts|
  {
    var k := GreedyCount(amounts, budget);
    if amounts != [] && budget >= amounts[0] {
      GreedyCountSpec(amounts[1..], budget - amounts[0]);
      assert amounts[..k] == [amounts[0]] + amounts[1..][..k - 1];
      SumCons(amounts[0], amounts[1..][..k - 1]);
      if k < |amounts| {
        assert amounts[1..][k - 1] == amounts[k];
      }
    } else {
      assert amounts[..0] == [];
    }
  }

  /** When the gross covers every pending advance (none negative), all of them are settled. */
  lemma {:induction false} GreedySettlesAll(amounts: seq<real>, budget: real)
    requires forall i :: 0 <= i < |amounts| ==> amounts[i] >= 0.0
    requires Sum(amounts) <= budget
    ensures GreedyCount(amounts, budget) == |amounts|
    decreases |amounts|
  {
    if amounts != [] {
      assert amounts == [amounts[0]] + amounts[1..];
      SumCons(amounts[0], amounts[1..]);
      SumNonNegative(amounts[1..]);
      GreedySettlesAll(amounts[1..], budget - amounts[0]);
    }
  }

  /** `max(0, gross - total_pending)`: the cash paid out. */
  function NetPay(gross: real, totalPending: real): (r: real)
    ensures r >= 0.0 && r >= gross - totalPending
    ensures r == 0.0 || r == gross - totalPending
  {
    if gross - totalPending > 0.0 then gross - totalPending else 0.0
  }

  /**
   * No partial settlement: when one advance (none negative) stays pending, no
   * cash is paid, and the part of the gross left after the settled ones is
   * neither paid out nor credited to the advance left open.
   */
  lemma {:induction false} UncoveredAdvanceMeansNoCash(amounts: seq<real>, gross: real)
    requires gross >= 0.0
    requires forall i :: 0 <= i < |amounts| ==> amounts[i] >= 0.0
    requires GreedyCount(amounts, gross) < |amounts|
    ensures NetPay(gross, Sum(amounts)) == 0.0
    ensures gross - Sum(amounts[..GreedyCount(amounts, gross)]) >= 0.0
  {
    var k := GreedyCount(amounts, gross);
    GreedyCountSpec(amounts, gross);
    assert amounts == amounts[..k] + [amounts[k]] + amounts[k + 1..];
    SumAppend(amounts[..k] + [amounts[k]], amounts[k + 1..]);
    SumAppend(amounts[..k], [amounts[k]]);
    assert [amounts[k]][..0] == [];
    SumNonNegative(amounts[k + 1..]);
  }

  /** The advance table with the listed advances marked settled. */
  function SettleAll(adv: seq<Advance>, s: seq<nat>): (r: seq<Advance>)
    ensures |r| == |adv|
    ensures forall j :: 0 <= j < |adv| ==> r[j] == (if j in s then adv[j].(isSettled := true) else adv[j])
  {
    seq(|adv|, j requires 0 <= j < |adv| => if j in s then adv[j].(isSettled := true) else adv[j])
  }

  /** Settling one more advance. */
  lemma SettleAllSnoc(adv: seq<Advance>, s: seq<nat>, a: nat)
    requires a < |adv|
    ensures SettleAll(adv, s + [a]) == SettleAll(adv, s)[a := adv[a].(isSettled := true)]
  {
    var l, r := SettleAll(adv, s + [a]), SettleAll(adv, s)[a := adv[a].(isSettled := true)];
    forall j | 0 <= j < |adv| ensures l[j] == r[j] {
      assert j in s + [a] <==> j in s || j == a;
    }
  }

  /** What a payroll record does to the advance table and the cash paid. */
  datatype Settlement = Settlement(advances: seq<Advance>, cash: real, pendingTotal: real)

  /**
   * `add_payroll_record`'s settlement: the employee's unsettled advances,
   * oldest first, are settled while the running gross covers them, and the
   * cash paid is the gross less all of them (settled or not), never negative.
   */
  function SettlePayroll(adv: seq<Advance>, emp: int, gross: real): (s: Settlement)
  {
    var order := PendingByDate(adv, emp);
    var amounts := Amounts(adv, order);
    Settlement(SettleAll(adv, order[..GreedyCount(amounts, gross)]), NetPay(gross, Sum(amounts)), Sum(amounts))
  }

  // ------------------------------------------------------------- attendance

  /** One element of the `/attendance/bulk` body. */
  datatype AttendanceIn = AttendanceIn(employeeId: int, isPresent: bool, date: Option<DateTime>)

  /** `item.date or datetime.now()`. */
  function TargetDate(item: AttendanceIn, now: DateTime): DateTime
  {
    if item.date.Some? then item.date.value else now
  }

  /** The first record of the employee on the calendar day of `d` (`.first()` of the day-window query). */
  function FindDayRecord(recs: seq<AttendanceRecord>, emp: int, d: DateTime): (r: Option<nat>)
    ensures r.Some? ==> r.value < |recs| && recs[r.value].employeeId == emp && SameDay(recs[r.value].date, d)
    ensures r.Some? ==> forall j :: 0 <= j < r.value ==> !(recs[j].employeeId == emp && SameDay(recs[j].date, d))
    ensures r.None? ==> forall j :: 0 <= j < |recs| ==> !(recs[j].employeeId == emp && SameDay(recs[j].date, d))
    decreases |recs|
  {
    if recs == [] then None
    else if recs[0].employeeId == emp && SameDay(recs[0].date, d) then Some(0)
    else
      match FindDayRecord(recs[1..], emp, d)
      case None => None
      case Some(j) => Some(j + 1)
  }

  /** One pass of the upsert loop: overwrite the day's `is_present`, or append a new record. */
  function Upsert(recs: seq<AttendanceRecord>, emp: int, present: bool, d: DateTime): seq<AttendanceRecord>
  {
    match FindDayRecord(recs, emp, d)
    case Some(j) => recs[j := recs[j].(isPresent := present)]
    case None => recs + [AttendanceRecord(emp, present, d)]
  }

  /** At most one record per employee and calendar day. */
  predicate OnePerDay(recs: seq<AttendanceRecord>)
  {
    forall i, j :: 0 <= i < j < |recs| ==> !(recs[i].employeeId == recs[j].employeeId && SameDay(recs[i].date, recs[j].date))
  }

  /** Some record of the employee on that day carries the flag. */
  predicate RecordedAs(recs: seq<AttendanceRecord>, emp: int, d: DateTime, present: bool)
  {
    exists j :: 0 <= j < |recs| && recs[j].employeeId == emp && SameDay(recs[j].date, d) && recs[j].isPresent == present
  }

  /** An upsert keeps one record per employee and calendar day. */
  lemma UpsertOnePerDay(recs: seq<AttendanceRecord>, emp: int, present: bool, d: DateTime)
    requires OnePerDay(recs)
    ensures OnePerDay(Upsert(recs, emp, present, d))
  {
  }

  /**
   * An upsert leaves the employee and date of every earlier record alone,
   * changes no record of another key, and leaves a record for the key that
   * holds the new flag.
   */
  lemma UpsertSpec(recs: seq<AttendanceRecord>, emp: int, present: bool, d: DateTime)
    ensures var r := Upsert(recs, emp, present, d);
      |recs| <= |r| <= |recs| + 1
      && (forall j :: 0 <= j < |recs| ==> r[j].employeeId == recs[j].employeeId && r[j].date == recs[j].date)
      && (forall j :: 0 <= j < |recs| && !(recs[j].employeeId == emp && SameDay(recs[j].date, d)) ==> r[j] == recs[j])
      && RecordedAs(r, emp, d, present)
  {
    var r := Upsert(recs, emp, present, d);
    match FindDayRecord(recs, emp, d)
    case Some(j) =>
      assert r[j].employeeId == emp && SameDay(r[j].date, d) && r[j].isPresent == present;
    case None =>
      assert r[|recs|].employeeId == emp && SameDay(r[|recs|].date, d) && r[|recs|].isPresent == present;
  }

  /** The whole request body, applied in order. */
  function UpsertAll(recs: seq<AttendanceRecord>, items: seq<AttendanceIn>, now: DateTime): seq<AttendanceRecord>
    decreases |items|
  {
    if items == [] then recs
    else
      var last := items[|items| - 1];
      Upsert(UpsertAll(recs, items[..|items| - 1], now), last.employeeId, last.isPresent, TargetDate(last, now))
  }

  /**
   * After a bulk save the table still has one record per employee and day,
   * every earlier record kept its employee and date, and every item of the
   * body has its record.
   */
  lemma {:induction false} UpsertAllSpec(recs: seq<AttendanceRecord>, items: seq<AttendanceIn>, now: DateTime)
    requires OnePerDay(recs)
    ensures var r := UpsertAll(recs, items, now);
      OnePerDay(r)
      && |recs| <= |r| <= |recs| + |items|
      && (forall j :: 0 <= j < |recs| ==> r[j].employeeId == recs[j].employeeId && r[j].date == recs[j].date)
      && (forall i :: 0 <= i < |items| ==>
            exists j :: 0 <= j < |r| && r[j].employeeId == items[i].employeeId && SameDay(r[j].date, TargetDate(items[i], now)))
    decreases |items|
  {
    if items != [] {
      var front := items[..|items| - 1];
      var last := items[|items| - 1];
      var mid := UpsertAll(recs, front, now);
      UpsertAllSpec(recs, front, now);
      UpsertOnePerDay(mid, last.employeeId, last.isPresent, TargetDate(last, now));
      UpsertSpec(mid, last.employeeId, last.isPresent, TargetDate(last, now));
      var r := UpsertAll(recs, items, now);
      forall i | 0 <= i < |items|
        ensures exists j :: 0 <= j < |r| && r[j].employeeId == items[i].employeeId && SameDay(r[j].date, TargetDate(items[i], now))
      {
        if i < |front| {
          assert items[i] == front[i];
          var j :| 0 <= j < |mid| && mid[j].employeeId == front[i].employeeId && SameDay(mid[j].date, TargetDate(front[i], now));
          assert r[j].employeeId == mid[j].employeeId && r[j].date == mid[j].date;
        }
      }
    }
  }

  /** The last item of the body decides the flag of its employee and day. */
  lemma LastItemWins(recs: seq<AttendanceRecord>, items: seq<AttendanceIn>, now: DateTime)
    requires items != []
    ensures RecordedAs(UpsertAll(recs, items, now), items[|items| - 1].employeeId,
                       TargetDate(items[|items| - 1], now), items[|items| - 1].isPresent)
  {
    var last := items[|items| - 1];
    var mid := UpsertAll(recs, items[..|items| - 1], now);
    var r := UpsertAll(recs, items, now);
    var d := TargetDate(last, now);
    var found := FindDayRecord(mid, last.employeeId, d);
    var j := if found.Some? then found.value else |mid|;
    if found.None? {
      assert r == mid + [AttendanceRecord(last.employeeId, last.isPresent, d)];
    }
    assert 0 <= j < |r| && r[j].employeeId == last.employeeId && SameDay(r[j].date, d) && r[j].isPresent == last.isPresent;
  }

  /**
   * An item's flag is what the table records for its employee and day, as
   * long as no later item of the body names the same employee and day.
   */
  lemma {:induction false} ItemRecorded(recs: seq<AttendanceRecord>, items: seq<AttendanceIn>, now: DateTime, i: int)
    requires 0 <= i < |items|
    requires forall j :: i < j < |items| ==>
      !(items[j].employeeId == items[i].employeeId && SameDay(TargetDate(items[j], now), TargetDate(items[i], now)))
    ensures RecordedAs(UpsertAll(recs, items, now), items[i].employeeId, TargetDate(items[i], now), items[i].isPresent)
    decreases |items|
  {
    if i == |items| - 1 {
      LastItemWins(recs, items, now);
    } else {
      var front := items[..|items| - 1];
      var last := items[|items| - 1];
      assert forall j :: i < j < |front| ==> front[j] == items[j];
      assert front[i] == items[i];
      ItemRecorded(recs, front, now, i);
      var mid := UpsertAll(recs, front, now);
      var d := TargetDate(items[i], now);
      var k :| 0 <= k < |mid| && mid[k].employeeId == items[i].employeeId && SameDay(mid[k].date, d)
        && mid[k].isPresent == items[i].isPresent;
      UpsertSpec(mid, last.employeeId, last.isPresent, TargetDate(last, now));
      var r := UpsertAll(recs, items, now);
      assert r[k] == mid[k];
    }
  }

  // ------------------------------------------------------------- work trips

  datatype EmployeeIn = EmployeeIn(employeeId: int, isPresent: bool)

  datatype MaterialIn = MaterialIn(stockItemId: int, quantityOut: real)

  /** `{id, meters_done}` of a close or progress request. */
  datatype MetersUpdate = MetersUpdate(id: int, metersDone: real)

  /** `{id, quantity_returned}` of a close request. */
  datatype ReturnUpdate = ReturnUpdate(id: int, quantityReturned: real)

  /** The assignments a new trip gets: the current price as a snapshot, nothing done, nothing earned. */
  function NewAssignments(emps: seq<EmployeeIn>, firstId: int, price: real): (r: seq<TripEmployee>)
    ensures |r| == |emps|
    ensures forall i :: 0 <= i < |emps| ==>
      r[i] == TripEmployee(firstId + i, emps[i].employeeId, emps[i].isPresent, 0.0, price, 0.0)
  {
    seq(|emps|, i requires 0 <= i < |emps| => TripEmployee(firstId + i, emps[i].employeeId, emps[i].isPresent, 0.0, price, 0.0))
  }

  /** The material rows a new trip gets: all out, nothing returned or used yet. */
  function NewMaterials(mats: seq<MaterialIn>, firstId: int): (r: seq<TripMaterial>)
    ensures |r| == |mats|
    ensures forall i :: 0 <= i < |mats| ==>
      r[i] == TripMaterial(firstId + i, mats[i].stockItemId, mats[i].quantityOut, 0.0, 0.0)
  {
    seq(|mats|, i requires 0 <= i < |mats| => TripMaterial(firstId + i, mats[i].stockItemId, mats[i].quantityOut, 0.0, 0.0))
  }

  /** Stock ids are 1-based positions in the stock table. */
  predicate HasStock(stock: seq<StockItem>, id: int)
  {
    1 <= id <= |stock|
  }

  /** One material leaving on a trip: its quantity comes off the stock when the item exists; the status is not touched. */
  function DeductOne(stock: seq<StockItem>, m: MaterialIn): seq<StockItem>
  {
    if HasStock(stock, m.stockItemId) then
      var k := m.stockItemId - 1;
      stock[k := stock[k].(quantity := stock[k].quantity - m.quantityOut)]
    else stock
  }

  function DeductAll(stock: seq<StockItem>, mats: seq<MaterialIn>): seq<StockItem>
    decreases |mats|
  {
    if mats == [] then stock else DeductOne(DeductAll(stock, mats[..|mats| - 1]), mats[|mats| - 1])
  }

  /** Total quantity the listed materials take from stock item `id`. */
  function OutFor(mats: seq<MaterialIn>, id: int): real
    decreases |mats|
  {
    if mats == [] then 0.0
    else OutFor(mats[..|mats| - 1], id) + (if mats[|mats| - 1].stockItemId == id then mats[|mats| - 1].quantityOut else 0.0)
  }

  /**
   * Creating a trip lowers every stock item by everything the trip takes of
   * it, counting repeated lines, and changes nothing else about the item
   * (in particular, not its status).
   */
  lemma {:induction false} DeductAllSpec(stock: seq<StockItem>, mats: seq<MaterialIn>)
    ensures var r := DeductAll(stock, mats);
      |r| == |stock|
      && forall k :: 0 <= k < |stock| ==> r[k] == stock[k].(quantity := stock[k].quantity - OutFor(mats, k + 1))
    decreases |mats|
  {
    if mats != [] {
      DeductAllSpec(stock, mats[..|mats| - 1]);
    }
  }

  /** The first trip material with the given row id (`next(m for m in trip.materials if m.id == ...)`). */
  function FindMaterial(ms: seq<TripMaterial>, id: int): (r: Option<nat>)
    ensures r.Some? ==> r.value < |ms| && ms[r.value].id == id
    ensures r.Some? ==> forall j :: 0 <= j < r.value ==> ms[j].id != id
    ensures r.None? ==> forall j :: 0 <= j < |ms| ==> ms[j].id != id
    decreases |ms|
  {
    if ms == [] then None
    else if ms[0].id == id then Some(0)
    else
      match FindMaterial(ms[1..], id)
      case None => None
      case Some(j) => Some(j + 1)
  }

  function FindAssignment(es: seq<TripEmployee>, id: int): (r: Option<nat>)
    ensures r.Some? ==> r.value < |es| && es[r.value].id == id
    ensures r.Some? ==> forall j :: 0 <= j < r.value ==> es[j].id != id
    ensures r.None? ==> forall j :: 0 <= j < |es| ==> es[j].id != id
    decreases |es|
  {
    if es == [] then None
    else if es[0].id == id then Some(0)
    else
      match FindAssignment(es[1..], id)
      case None => None
      case Some(j) => Some(j + 1)
  }

  /** A trip's materials together with the stock table, as the close loop updates both. */
  datatype Logistics = Logistics(materials: seq<TripMaterial>, stock: seq<StockItem>)

  /** A material row after `ret` came back: used is what went out and did not return. */
  function Returned(m: TripMaterial, ret: real): (r: TripMaterial)
    ensures r.id == m.id && r.stockItemId == m.stockItemId && r.quantityOut == m.quantityOut
    ensures r.quantityReturned == ret && r.quantityUsed >= 0.0 && r.quantityUsed >= m.quantityOut - ret
  {
    m.(quantityReturned := ret, quantityUsed := MaxReal(0.0, m.quantityOut - ret))
  }

  /** One returned-material line of a close request. */
  function ApplyReturn(l: Logistics, u: ReturnUpdate): Logistics
  {
    match FindMaterial(l.materials, u.id)
    case None => l
    case Some(j) =>
      var m := l.materials[j];
      var ret := u.quantityReturned;
      var ms := l.materials[j := Returned(m, ret)];
      if HasStock(l.stock, m.stockItemId) then
        var k := m.stockItemId - 1;
        Logistics(ms, l.stock[k := l.stock[k].(quantity := l.stock[k].quantity + ret)])
      else Logistics(ms, l.stock)
  }

  function ApplyReturns(l: Logistics, us: seq<ReturnUpdate>): Logistics
    decreases |us|
  {
    if us == [] then l else ApplyReturn(ApplyReturns(l, us[..|us| - 1]), us[|us| - 1])
  }

  /** A material row whose used quantity is what went out and did not come back. */
  predicate Settled(m: TripMaterial)
  {
    m.quantityUsed == MaxReal(0.0, m.quantityOut - m.quantityReturned)
  }

  /** Two material lists that differ at most in returned/used quantities. */
  predicate SameRows(a: seq<TripMaterial>, b: seq<TripMaterial>)
  {
    |a| == |b| && forall j :: 0 <= j < |a| ==> a[j].id == b[j].id && a[j].stockItemId == b[j].stockItemId && a[j].quantityOut == b[j].quantityOut
  }

  lemma FindMaterialSameRows(a: seq<TripMaterial>, b: seq<TripMaterial>, id: int)
    requires SameRows(a, b)
    ensures FindMaterial(a, id) == FindMaterial(b, id)
  {
  }

  /** What the returned lines put back into stock item `sid`: those whose material row exists and comes from that item. */
  function RestoredTo(ms: seq<TripMaterial>, us: seq<ReturnUpdate>, sid: int): real
    decreases |us|
  {
    if us == [] then 0.0
    else
      var u := us[|us| - 1];
      var found := FindMaterial(ms, u.id);
      RestoredTo(ms, us[..|us| - 1], sid)
        + (if found.Some? && ms[found.value].stockItemId == sid then u.quantityReturned else 0.0)
  }

  /** The returned quantity of the last close line naming material row `id`, as the endpoint's loop leaves it. */
  function LastReturn(us: seq<ReturnUpdate>, id: int): (r: Option<real>)
    ensures r.None? <==> forall i :: 0 <= i < |us| ==> us[i].id != id
    ensures r.Some? ==> exists i :: (0 <= i < |us| && us[i].id == id && us[i].quantityReturned == r.value
      && forall k :: i < k < |us| ==> us[k].id != id)
    decreases |us|
  {
    if us == [] then None
    else if us[|us| - 1].id == id then Some(us[|us| - 1].quantityReturned)
    else LastReturn(us[..|us| - 1], id)
  }

  /**
   * Row by row, closing sets the material row the endpoint finds for an id
   * (the first with that id) to the last returned quantity any line gives
   * it, with the used quantity recomputed; every other row stays as it was.
   */
  lemma {:induction false} ApplyReturnsRows(l: Logistics, us: seq<ReturnUpdate>)
    ensures var r := ApplyReturns(l, us);
      |r.materials| == |l.materials|
      && forall j :: 0 <= j < |l.materials| ==>
           var last := LastReturn(us, l.materials[j].id);
           r.materials[j] ==
             if FindMaterial(l.materials, l.materials[j].id) == Some(j) && last.Some? then Returned(l.materials[j], last.value)
             else l.materials[j]
    decreases |us|
  {
    if us != [] {
      var front := us[..|us| - 1];
      var u := us[|us| - 1];
      ApplyReturnsRows(l, front);
      var mid := ApplyReturns(l, front);
      assert SameRows(l.materials, mid.materials);
      FindMaterialSameRows(l.materials, mid.materials, u.id);
      ReturnStep(mid, u);
      var r := ApplyReturns(l, us);
      var f := FindMaterial(l.materials, u.id);
      forall j | 0 <= j < |l.materials|
        ensures var last := LastReturn(us, l.materials[j].id);
          r.materials[j] ==
            if FindMaterial(l.materials, l.materials[j].id) == Some(j) && last.Some? then Returned(l.materials[j], last.value)
            else l.materials[j]
      {
        var m := l.materials[j];
        if f == Some(j) {
          assert r.materials[j] == Returned(mid.materials[j], u.quantityReturned);
        } else {
          assert r.materials[j] == mid.materials[j];
          if u.id == m.id {
            assert FindMaterial(l.materials, m.id) != Some(j);
          } else {
            assert LastReturn(us, m.id) == LastReturn(front, m.id);
          }
        }
      }
    }
  }

  /** What one close line does to the material rows. */
  lemma ReturnStep(l: Logistics, u: ReturnUpdate)
    ensures var f := FindMaterial(l.materials, u.id);
      ApplyReturn(l, u).materials ==
        if f.Some? then l.materials[f.value := Returned(l.materials[f.value], u.quantityReturned)] else l.materials
  {
  }

  /** Closing keeps every row's id, item and quantity out, and grows every stock item by exactly what came back against it. */
  lemma {:induction false} ApplyReturnsStock(l: Logistics, us: seq<ReturnUpdate>)
    ensures var r := ApplyReturns(l, us);
      SameRows(l.materials, r.materials)
      && |r.stock| == |l.stock|
      && (forall k :: 0 <= k < |l.stock| ==>
            r.stock[k] == l.stock[k].(quantity := l.stock[k].quantity + RestoredTo(l.materials, us, k + 1)))
    decreases |us|
  {
    if us != [] {
      var front := us[..|us| - 1];
      var u := us[|us| - 1];
      ApplyReturnsStock(l, front);
      var mid := ApplyReturns(l, front);
      FindMaterialSameRows(l.materials, mid.materials, u.id);
    }
  }

  /**
   * Closing a trip's materials: the rows keep their ids, items and
   * quantities out; the row the endpoint finds for an id named by the
   * request takes the last returned quantity given for it, with its used
   * quantity equal to what went out and did not come back, and every other
   * row is untouched; and every stock item grows by exactly the quantities
   * returned against it.
   */
  lemma ApplyReturnsSpec(l: Logistics, us: seq<ReturnUpdate>)
    ensures var r := ApplyReturns(l, us);
      SameRows(l.materials, r.materials)
      && (forall j :: 0 <= j < |l.materials| ==>
            var last := LastReturn(us, l.materials[j].id);
            r.materials[j] ==
              if FindMaterial(l.materials, l.materials[j].id) == Some(j) && last.Some? then Returned(l.materials[j], last.value)
              else l.materials[j])
      && (forall j :: 0 <= j < |l.materials| ==>
            r.materials[j] == l.materials[j]
            || (Settled(r.materials[j]) && (exists i :: 0 <= i < |us| && us[i].id == l.materials[j].id && r.materials[j].quantityReturned == us[i].quantityReturned)))
      && |r.stock| == |l.stock|
      && (forall k :: 0 <= k < |l.stock| ==>
            r.stock[k] == l.stock[k].(quantity := l.stock[k].quantity + RestoredTo(l.materials, us, k + 1)))
  {
    ApplyReturnsStock(l, us);
    ApplyReturnsRows(l, us);
  }

  /** An assignment after a meters line: the meters, the earnings at `price`, and the snapshot refreshed when `setPrice`. */
  function Assigned(e: TripEmployee, meters: real, price: real, setPrice: bool): (r: TripEmployee)
    ensures r.id == e.id && r.employeeId == e.employeeId && r.isPresent == e.isPresent
    ensures r.metersDone == meters && r.historicalPrice == (if setPrice then price else e.historicalPrice)
    ensures r.totalEarned == meters * price
  {
    e.(metersDone := meters,
       historicalPrice := if setPrice then price else e.historicalPrice,
       totalEarned := meters * price)
  }

  /** One meters line of a close (`setPrice`: the price snapshot is refreshed) or progress request. */
  function ApplyMeters(es: seq<TripEmployee>, u: MetersUpdate, price: real, setPrice: bool): seq<TripEmployee>
  {
    match FindAssignment(es, u.id)
    case None => es
    case Some(j) => es[j := Assigned(es[j], u.metersDone, price, setPrice)]
  }

  function ApplyAllMeters(es: seq<TripEmployee>, us: seq<MetersUpdate>, price: real, setPrice: bool): seq<TripEmployee>
    decreases |us|
  {
    if us == [] then es else ApplyMeters(ApplyAllMeters(es, us[..|us| - 1], price, setPrice), us[|us| - 1], price, setPrice)
  }

  /** The meters of the last line naming assignment `id`, as the endpoint's loop leaves them. */
  function LastMeters(us: seq<MetersUpdate>, id: int): (r: Option<real>)
    ensures r.None? <==> forall i :: 0 <= i < |us| ==> us[i].id != id
    ensures r.Some? ==> exists i :: (0 <= i < |us| && us[i].id == id && us[i].metersDone == r.value
      && forall k :: i < k < |us| ==> us[k].id != id)
    decreases |us|
  {
    if us == [] then None
    else if us[|us| - 1].id == id then Some(us[|us| - 1].metersDone)
    else LastMeters(us[..|us| - 1], id)
  }

  lemma FindAssignmentSameIds(a: seq<TripEmployee>, b: seq<TripEmployee>, id: int)
    requires |a| == |b| && forall j :: 0 <= j < |a| ==> a[j].id == b[j].id
    ensures FindAssignment(a, id) == FindAssignment(b, id)
  {
  }

  /**
   * Row by row, the meters lines set the assignment the endpoint finds for
   * an id (the first with that id) to the last meters any line gives it,
   * earning them at the price; every other assignment stays as it was.
   */
  lemma {:induction false} ApplyAllMetersRows(es: seq<TripEmployee>, us: seq<MetersUpdate>, price: real, setPrice: bool)
    ensures var r := ApplyAllMeters(es, us, price, setPrice);
      |r| == |es|
      && forall j :: 0 <= j < |es| ==>
           var last := LastMeters(us, es[j].id);
           r[j] == if FindAssignment(es, es[j].id) == Some(j) && last.Some? then Assigned(es[j], last.value, price, setPrice) else es[j]
    decreases |us|
  {
    if us != [] {
      var front := us[..|us| - 1];
      var u := us[|us| - 1];
      ApplyAllMetersRows(es, front, price, setPrice);
      var mid := ApplyAllMeters(es, front, price, setPrice);
      assert forall j :: 0 <= j < |es| ==> mid[j].id == es[j].id;
      FindAssignmentSameIds(es, mid, u.id);
      MetersStep(mid, u, price, setPrice);
      var r := ApplyAllMeters(es, us, price, setPrice);
      var f := FindAssignment(es, u.id);
      forall j | 0 <= j < |es|
        ensures var last := LastMeters(us, es[j].id);
          r[j] == if FindAssignment(es, es[j].id) == Some(j) && last.Some? then Assigned(es[j], last.value, price, setPrice) else es[j]
      {
        if f == Some(j) {
          assert r[j] == Assigned(mid[j], u.metersDone, price, setPrice);
        } else {
          assert r[j] == mid[j];
          if u.id == es[j].id {
            assert FindAssignment(es, es[j].id) != Some(j);
          } else {
            assert LastMeters(us, es[j].id) == LastMeters(front, es[j].id);
          }
        }
      }
    }
  }

  /** What one meters line does to the assignments. */
  lemma MetersStep(es: seq<TripEmployee>, u: MetersUpdate, price: real, setPrice: bool)
    ensures var f := FindAssignment(es, u.id);
      ApplyMeters(es, u, price, setPrice) ==
        if f.Some? then es[f.value := Assigned(es[f.value], u.metersDone, price, setPrice)] else es
  {
  }

  /**
   * After the meters lines, every assignment keeps its id, employee and
   * presence; the assignment the endpoint finds for an id named by the
   * request is set from the last line naming it (its meters, those meters
   * times the price earned, the snapshot refreshed on close), and every
   * other assignment is untouched; and a progress update (no price refresh)
   * leaves every price snapshot as it was.
   */
  lemma ApplyAllMetersSpec(es: seq<TripEmployee>, us: seq<MetersUpdate>, price: real, setPrice: bool)
    ensures var r := ApplyAllMeters(es, us, price, setPrice);
      |r| == |es|
      && (forall j :: 0 <= j < |es| ==> r[j].id == es[j].id && r[j].employeeId == es[j].employeeId && r[j].isPresent == es[j].isPresent)
      && (forall j :: 0 <= j < |es| ==>
            var last := LastMeters(us, es[j].id);
            r[j] == if FindAssignment(es, es[j].id) == Some(j) && last.Some? then Assigned(es[j], last.value, price, setPrice) else es[j])
      && (!setPrice ==> forall j :: 0 <= j < |es| ==> r[j].historicalPrice == es[j].historicalPrice)
  {
    ApplyAllMetersRows(es, us, price, setPrice);
  }

  /**
   * Every assignment the meters lines change earns its meters times the
   * price, with meters taken from a line of the request and, on close, the
   * price as its snapshot.
   */
  lemma {:induction false} ApplyAllMetersEarned(es: seq<TripEmployee>, us: seq<MetersUpdate>, price: real, setPrice: bool)
    ensures var r := ApplyAllMeters(es, us, price, setPrice);
      |r| == |es|
      && (forall j :: 0 <= j < |es| ==> r[j].id == es[j].id)
      && forall j :: 0 <= j < |es| ==>
           r[j] == es[j]
           || (r[j].totalEarned == r[j].metersDone * price
               && (setPrice ==> r[j].historicalPrice == price)
               && (exists i :: 0 <= i < |us| && us[i].id == es[j].id && r[j].metersDone == us[i].metersDone))
    decreases |us|
  {
    if us != [] {
      var front := us[..|us| - 1];
      ApplyAllMetersEarned(es, front, price, setPrice);
      var mid := ApplyAllMeters(es, front, price, setPrice);
      var r := ApplyAllMeters(es, us, price, setPrice);
      var u := us[|us| - 1];
      var f := FindAssignment(mid, u.id);
      forall j | 0 <= j < |es|
        ensures r[j] == es[j]
            || (r[j].totalEarned == r[j].metersDone * price
                && (setPrice ==> r[j].historicalPrice == price)
                && exists i :: 0 <= i < |us| && us[i].id == es[j].id && r[j].metersDone == us[i].metersDone)
      {
        if f.Some? && f.value == j {
          assert us[|us| - 1].id == es[j].id;
        } else if mid[j] != es[j] {
          assert r[j] == mid[j];
          var i :| 0 <= i < |front| && front[i].id == es[j].id && mid[j].metersDone == front[i].metersDone;
          assert us[i] == front[i];
        }
      }
    }
  }

  /**
   * The bookkeeping promised in `create_work_trip`: taking `out` and later
   * returning `ret` of an item leaves it at its quantity minus what was used,
   * exactly when no more came back than went out.
   */
  lemma RoundTripStock(stock: seq<StockItem>, sid: int, out: real, ret: real, rowId: int)
    requires HasStock(stock, sid)
    ensures var taken := DeductOne(stock, MaterialIn(sid, out));
      var back := ApplyReturn(Logistics([TripMaterial(rowId, sid, out, 0.0, 0.0)], taken), ReturnUpdate(rowId, ret));
      back.stock[sid - 1].quantity == stock[sid - 1].quantity - back.materials[0].quantityUsed <==> ret <= out
  {
  }
}

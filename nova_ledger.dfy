// The NovaManager back end's endpoints as atomic state transitions of one
// in-memory database. Rows are positions in their table (id = index + 1)
// except employees and vehicles, which are looked up by key. An endpoint
// that raises leaves the database as it was (its session is never committed).
module NovaLedger {
  import opened Prelude
  import opened NovaTables

  /** The HTTP errors the endpoints raise: 404, 400, and a 500 from an uncaught Python exception. */
  datatype HttpError = NotFound | BadRequest | ServerError

  datatype Reply<T> = Ok(value: T) | Fail(error: HttpError)

  /** Looking a category up by name, and creating it with the given type when it is missing. */
  function WithCategory(cats: map<string, TxType>, name: string, kind: TxType): map<string, TxType>
  {
    if name in cats then cats else cats[name := kind]
  }

  /** Python's `text or default` on an optional string. */
  function TextOr(s: Option<string>, default: string): string
  {
    if s.Some? && s.value != "" then s.value else default
  }

  predicate HasTrip(trips: seq<WorkTrip>, id: int)
  {
    1 <= id <= |trips|
  }

  /**
   * The settlement walk of `add_payroll_record`: the pending advances in
   * date order are settled while the running gross still covers the next
   * one; the walk stops at the first it does not.
   */
  method SettleOldestFirst(adv: seq<Advance>, order: seq<nat>, gross: real) returns (settled: seq<Advance>)
    requires InRange(adv, order)
    ensures settled == SettleAll(adv, order[..GreedyCount(Amounts(adv, order), gross)])
  {
    var amounts := Amounts(adv, order);
    var left := gross;
    settled := adv;
    var i := 0;
    assert order[..0] == [];
    assert settled == SettleAll(adv, []);
    while i < |order|
      invariant 0 <= i <= |order| && |settled| == |adv|
      invariant GreedyCount(amounts, gross) == i + GreedyCount(amounts[i..], left)
      invariant settled == SettleAll(adv, order[..i])
    {
      var a := order[i];
      GreedyCountStep(amounts, i, left);
      if left >= amounts[i] {
        assert order[..i + 1] == order[..i] + [a];
        SettleAllSnoc(adv, order[..i], a);
        settled := settled[a := adv[a].(isSettled := true)];
        left := left - amounts[i];
        i := i + 1;
      } else {
        break;
      }
    }
  }

  /** The whole settlement step of `add_payroll_record` on the advance table. */
  method SettleAdvances(adv: seq<Advance>, emp: int, gross: real) returns (out: Settlement)
    ensures out == SettlePayroll(adv, emp, gross)
  {
    var pending := PendingByDate(adv, emp);
    var amounts := Amounts(adv, pending);
    var totalPending := Sum(amounts);
    var netTotal := if gross - totalPending > 0.0 then gross - totalPending else 0.0;
    var settled := SettleOldestFirst(adv, pending, gross);
    out := Settlement(settled, netTotal, totalPending);
  }

  /** `create_work_trip`'s stock walk: each line's quantity out comes off its item, when the item exists. */
  method TakeMaterials(stock: seq<StockItem>, mats: seq<MaterialIn>) returns (r: seq<StockItem>)
    ensures r == DeductAll(stock, mats)
  {
    r := stock;
    var i := 0;
    while i < |mats|
      invariant 0 <= i <= |mats|
      invariant r == DeductAll(stock, mats[..i])
    {
      assert mats[..i + 1][..i] == mats[..i];
      var mat := mats[i];
      if 1 <= mat.stockItemId <= |r| {
        var k := mat.stockItemId - 1;
        r := r[k := r[k].(quantity := r[k].quantity - mat.quantityOut)];
      }
      i := i + 1;
    }
    assert mats[..i] == mats;
  }

  /** `close_work_trip`'s material walk: returns are recorded on the trip's lines and put back in stock. */
  method ReturnMaterials(l: Logistics, backs: seq<ReturnUpdate>) returns (r: Logistics)
    ensures r == ApplyReturns(l, backs)
  {
    r := l;
    var i := 0;
    while i < |backs|
      invariant 0 <= i <= |backs|
      invariant r == ApplyReturns(l, backs[..i])
    {
      assert backs[..i + 1][..i] == backs[..i];
      r := ApplyReturn(r, backs[i]);
      i := i + 1;
    }
    assert backs[..i] == backs;
  }

  /** The meters walk of `close_work_trip` and `update_trip_progress`. */
  method RecordMeters(es: seq<TripEmployee>, meters: seq<MetersUpdate>, price: real, setPrice: bool) returns (r: seq<TripEmployee>)
    ensures r == ApplyAllMeters(es, meters, price, setPrice)
  {
    r := es;
    var j := 0;
    while j < |meters|
      invariant 0 <= j <= |meters|
      invariant r == ApplyAllMeters(es, meters[..j], price, setPrice)
    {
      assert meters[..j + 1][..j] == meters[..j];
      r := ApplyMeters(r, meters[j], price, setPrice);
      j := j + 1;
    }
    assert meters[..j] == meters;
  }

  /** `saved[p]` is a record of item p's employee on item p's day. */
  predicate SavedRows(r: seq<AttendanceRecord>, saved: seq<nat>, items: seq<AttendanceIn>, now: DateTime)
  {
    |saved| == |items|
    && forall p :: 0 <= p < |items| ==>
         saved[p] < |r| && r[saved[p]].employeeId == items[p].employeeId && SameDay(r[saved[p]].date, TargetDate(items[p], now))
  }

  /** An upsert keeps the rows already written pointing at their records. */
  lemma SavedRowsStep(r: seq<AttendanceRecord>, saved: seq<nat>, items: seq<AttendanceIn>, item: AttendanceIn, now: DateTime, j: nat)
    requires SavedRows(r, saved, items, now)
    requires var u := Upsert(r, item.employeeId, item.isPresent, TargetDate(item, now));
      j < |u| && u[j].employeeId == item.employeeId && SameDay(u[j].date, TargetDate(item, now))
    ensures SavedRows(Upsert(r, item.employeeId, item.isPresent, TargetDate(item, now)), saved + [j], items + [item], now)
  {
    UpsertSpec(r, item.employeeId, item.isPresent, TargetDate(item, now));
  }

  /**
   * The upsert walk of `save_daily_attendance` over the attendance table;
   * `saved[p]` is the row item p wrote.
   */
  method UpsertAttendance(recs: seq<AttendanceRecord>, items: seq<AttendanceIn>, now: DateTime)
    returns (r: seq<AttendanceRecord>, saved: seq<nat>)
    requires OnePerDay(recs)
    ensures r == UpsertAll(recs, items, now) && OnePerDay(r)
    ensures SavedRows(r, saved, items, now)
  {
    r, saved := recs, [];
    var i := 0;
    while i < |items|
      invariant 0 <= i <= |items|
      invariant r == UpsertAll(recs, items[..i], now)
      invariant OnePerDay(r)
      invariant SavedRows(r, saved, items[..i], now)
    {
      assert items[..i + 1] == items[..i] + [items[i]];
      var item := items[i];
      var target := if item.date.Some? then item.date.value else now;
      UpsertOnePerDay(r, item.employeeId, item.isPresent, target);
      var existing := FindDayRecord(r, item.employeeId, target);
      var j: nat;
      var next: seq<AttendanceRecord>;
      if existing.Some? {
        j := existing.value;
        next := r[j := r[j].(isPresent := item.isPresent)];
      } else {
        j := |r|;
        next := r + [AttendanceRecord(item.employeeId, item.isPresent, target)];
      }
      SavedRowsStep(r, saved, items[..i], item, now, j);
      r, saved := next, saved + [j];
      i := i + 1;
    }
    assert items[..i] == items;
  }

  class Ledger {
    var categories: map<string, TxType>
    var transactions: seq<Transaction>
    var stock: seq<StockItem>
    var usages: seq<MaterialUsage>
    var employees: map<int, Employee>
    var advances: seq<Advance>
    var payroll: seq<PayrollRecord>
    var meterPrice: ConfigValue
    var trips: seq<WorkTrip>
    var nextAssignmentId: int
    var nextMaterialId: int
    var attendance: seq<AttendanceRecord>
    var vehicles: map<int, Vehicle>
    var expenseDocuments: seq<ExpenseDocument>

    /**
     * One attendance record per employee and calendar day. Only the
     * attendance upsert writes that table, and every other method's frame
     * leaves it alone, so this holds of every state.
     */
    ghost predicate Valid()
      reads this`attendance
    {
      OnePerDay(attendance)
    }

    constructor (staff: map<int, Employee>, fleet: map<int, Vehicle>, price: ConfigValue, documents: seq<ExpenseDocument>)
      ensures Valid()
      ensures categories == map[] && transactions == [] && stock == [] && usages == []
      ensures employees == staff && advances == [] && payroll == [] && meterPrice == price
      ensures trips == [] && nextAssignmentId == 1 && nextMaterialId == 1
      ensures attendance == [] && vehicles == fleet && expenseDocuments == documents
    {
      categories := map[];
      transactions := [];
      stock := [];
      usages := [];
      employees := staff;
      advances := [];
      payroll := [];
      meterPrice := price;
      trips := [];
      nextAssignmentId := 1;
      nextMaterialId := 1;
      attendance := [];
      vehicles := fleet;
      expenseDocuments := documents;
    }

    /** `create_stock_item`: the batch enters stock AVAILABLE and its cost is booked as an expense. */
    method CreateStockItem(name: string, cost: real, initialQuantity: real, now: DateTime) returns (id: int)
      modifies this`stock, this`transactions, this`categories
      ensures id == |old(stock)| + 1
      ensures stock == old(stock) + [StockItem(name, cost, initialQuantity, initialQuantity,
                                               UnitCost(cost, initialQuantity), Available, |old(transactions)| + 1)]
      ensures transactions == old(transactions) + [Transaction(cost, Expense, "Insumos / Materiales", false, now, StockPurchase(name))]
      ensures categories == WithCategory(old(categories), "Insumos / Materiales", Expense)
    {
      var uCost := if initialQuantity > 0.0 then cost / initialQuantity else 0.0;
      var item := StockItem(name, cost, initialQuantity, initialQuantity, uCost, Available, 0);
      stock := stock + [item];
      id := |stock|;
      categories := WithCategory(categories, "Insumos / Materiales", Expense);
      transactions := transactions + [Transaction(cost, Expense, "Insumos / Materiales", false, now, StockPurchase(name))];
      stock := stock[id - 1 := item.(purchaseTxId := |transactions|)];
    }

    /** `sell_stock_item`: 404 for an unknown item, 400 when it holds less than asked; otherwise the sale is booked as income. */
    method SellStockItem(itemId: int, qty: real, priceUnit: real, work: string, now: DateTime) returns (r: Reply<StockItem>)
      modifies this`stock, this`transactions, this`usages, this`categories
      ensures !HasStock(old(stock), itemId) ==> r == Fail(NotFound) && unchanged(this)
      ensures HasStock(old(stock), itemId) && old(stock)[itemId - 1].quantity < qty ==> r == Fail(BadRequest) && unchanged(this)
      ensures HasStock(old(stock), itemId) && old(stock)[itemId - 1].quantity >= qty ==>
        var item := old(stock)[itemId - 1];
        var total := qty * priceUnit;
        r == Ok(Withdraw(item, qty))
        && stock == old(stock)[itemId - 1 := Withdraw(item, qty)]
        && transactions == old(transactions) + [Transaction(total, Income, "Venta de Productos", false, now, StockSale(item.name, work))]
        && usages == old(usages) + [MaterialUsage(itemId, None, qty, work, Some(total), Some(|old(transactions)| + 1))]
        && categories == WithCategory(old(categories), "Venta de Productos", Income)
    {
      if !(1 <= itemId <= |stock|) {
        return Fail(NotFound);
      }
      var item := stock[itemId - 1];
      if item.quantity < qty {
        return Fail(BadRequest);
      }
      var totalSale := qty * priceUnit;
      categories := WithCategory(categories, "Venta de Productos", Income);
      transactions := transactions + [Transaction(totalSale, Income, "Venta de Productos", false, now, StockSale(item.name, work))];
      usages := usages + [MaterialUsage(itemId, None, qty, work, Some(totalSale), Some(|transactions|))];
      var left := item.quantity - qty;
      var status := item.status;
      if left <= 0.0 {
        status := Depleted;
      }
      stock := stock[itemId - 1 := item.(quantity := left, status := status)];
      r := Ok(stock[itemId - 1]);
    }

    /** `use_stock_item`: the same guards as a sale; the withdrawal is logged as a usage, with no transaction. */
    method UseStockItem(itemId: int, employeeId: Option<int>, qty: real, description: Option<string>) returns (r: Reply<MaterialUsage>)
      modifies this`stock, this`usages
      ensures !HasStock(old(stock), itemId) ==> r == Fail(NotFound) && unchanged(this)
      ensures HasStock(old(stock), itemId) && old(stock)[itemId - 1].quantity < qty ==> r == Fail(BadRequest) && unchanged(this)
      ensures HasStock(old(stock), itemId) && old(stock)[itemId - 1].quantity >= qty ==>
        var usage := MaterialUsage(itemId, employeeId, qty, TextOr(description, "Retirado por personal"), None, None);
        r == Ok(usage)
        && stock == old(stock)[itemId - 1 := Withdraw(old(stock)[itemId - 1], qty)]
        && usages == old(usages) + [usage]
    {
      if !(1 <= itemId <= |stock|) {
        return Fail(NotFound);
      }
      var item := stock[itemId - 1];
      if item.quantity < qty {
        return Fail(BadRequest);
      }
      var usage := MaterialUsage(itemId, employeeId, qty, TextOr(description, "Retirado por personal"), None, None);
      usages := usages + [usage];
      var left := item.quantity - qty;
      var status := item.status;
      if left <= 0.0 {
        status := Depleted;
      }
      stock := stock[itemId - 1 := item.(quantity := left, status := status)];
      r := Ok(usage);
    }

    /** `add_employee_advance`: an unsettled advance, paid out as an expense on the same date. */
    method AddEmployeeAdvance(empId: int, amount: real, description: Option<string>, date: Option<DateTime>, now: DateTime)
      returns (r: Reply<Advance>)
      modifies this`advances, this`transactions, this`categories
      ensures empId !in old(employees) ==> r == Fail(NotFound) && unchanged(this)
      ensures empId in old(employees) ==>
        var name := old(employees)[empId].name;
        var d := if date.Some? then date.value else now;
        var adv := Advance(empId, amount, d, TextOr(description, "Adelanto a " + name), false, |old(transactions)| + 1);
        r == Ok(adv)
        && advances == old(advances) + [adv]
        && transactions == old(transactions) + [Transaction(amount, Expense, "Adelantos / Vales", false, d, AdvanceNote(name, description))]
        && categories == WithCategory(old(categories), "Adelantos / Vales", Expense)
    {
      if empId !in employees {
        return Fail(NotFound);
      }
      var name := employees[empId].name;
      var d := if date.Some? then date.value else now;
      categories := WithCategory(categories, "Adelantos / Vales", Expense);
      transactions := transactions + [Transaction(amount, Expense, "Adelantos / Vales", false, d, AdvanceNote(name, description))];
      var adv := Advance(empId, amount, d, TextOr(description, "Adelanto a " + name), false, |transactions|);
      advances := advances + [adv];
      r := Ok(adv);
    }

    /**
     * `add_payroll_record`: the gross is meters times the configured price;
     * the employee's unsettled advances are settled oldest first while the
     * running gross covers them, and the cash paid, booked as an expense, is
     * the gross less all of them, never below zero.
     */
    method AddPayrollRecord(empId: int, meters: real, date: Option<DateTime>, now: DateTime) returns (r: Reply<PayrollRecord>)
      modifies this`advances, this`payroll, this`transactions, this`categories
      ensures empId !in old(employees) ==> r == Fail(NotFound) && unchanged(this)
      ensures empId in old(employees) ==>
        var gross := GrossPay(meters, old(meterPrice));
        var out := SettlePayroll(old(advances), empId, gross);
        var d := if date.Some? then date.value else now;
        var rec := PayrollRecord(empId, meters, gross, d, true, |old(transactions)| + 1);
        r == Ok(rec)
        && advances == out.advances
        && payroll == old(payroll) + [rec]
        && transactions == old(transactions) + [Transaction(out.cash, Expense, "Sueldos / Jornales", false, d,
                                                            Wage(old(employees)[empId].name, out.pendingTotal > 0.0))]
        && categories == WithCategory(old(categories), "Sueldos / Jornales", Expense)
    {
      if empId !in employees {
        return Fail(NotFound);
      }
      var grossTotal := GrossPay(meters, meterPrice);
      var out := SettleAdvances(advances, empId, grossTotal);
      advances := out.advances;
      var d := if date.Some? then date.value else now;
      var rec := PayrollRecord(empId, meters, grossTotal, d, true, |transactions| + 1);
      payroll := payroll + [rec];
      categories := WithCategory(categories, "Sueldos / Jornales", Expense);
      transactions := transactions + [Transaction(out.cash, Expense, "Sueldos / Jornales", false, d,
                                                  Wage(employees[empId].name, out.pendingTotal > 0.0))];
      r := Ok(rec);
    }

    /**
     * `create_work_trip`: an OPEN trip whose assignments snapshot the current
     * price, and whose materials are taken off stock line by line (no stock
     * check, no status change).
     */
    method CreateWorkTrip(date: Option<DateTime>, description: string, vehicleId: Option<int>,
                          emps: seq<EmployeeIn>, mats: seq<MaterialIn>, now: DateTime) returns (id: int)
      modifies this`trips, this`nextAssignmentId, this`nextMaterialId, this`stock
      ensures id == |old(trips)| + 1
      ensures trips == old(trips) + [WorkTrip(if date.Some? then date.value else now, description, Open, vehicleId,
                                              NewAssignments(emps, old(nextAssignmentId), PayrollPrice(old(meterPrice))),
                                              NewMaterials(mats, old(nextMaterialId)))]
      ensures nextAssignmentId == old(nextAssignmentId) + |emps| && nextMaterialId == old(nextMaterialId) + |mats|
      ensures stock == DeductAll(old(stock), mats)
    {
      var currentPrice := PayrollPrice(meterPrice);
      var d := if date.Some? then date.value else now;
      var assignments := NewAssignments(emps, nextAssignmentId, currentPrice);
      nextAssignmentId := nextAssignmentId + |emps|;
      var materials := NewMaterials(mats, nextMaterialId);
      nextMaterialId := nextMaterialId + |mats|;
      stock := TakeMaterials(stock, mats);
      trips := trips + [WorkTrip(d, description, Open, vehicleId, assignments, materials)];
      id := |trips|;
    }

    /**
     * `close_work_trip`: 404 for an unknown trip, 400 for a closed one, 500
     * when the configured price is not a number; otherwise returned materials
     * go back to stock, earnings are meters times the current price, and the
     * trip is CLOSED.
     */
    method CloseWorkTrip(tripId: int, backs: seq<ReturnUpdate>, meters: seq<MetersUpdate>) returns (r: Reply<WorkTrip>)
      modifies this`stock, this`trips
      ensures !HasTrip(old(trips), tripId) ==> r == Fail(NotFound) && unchanged(this)
      ensures HasTrip(old(trips), tripId) && old(trips)[tripId - 1].status == Closed ==> r == Fail(BadRequest) && unchanged(this)
      ensures HasTrip(old(trips), tripId) && old(trips)[tripId - 1].status == Open && ClosePrice(old(meterPrice)).None? ==>
        r == Fail(ServerError) && unchanged(this)
      ensures HasTrip(old(trips), tripId) && old(trips)[tripId - 1].status == Open && ClosePrice(old(meterPrice)).Some? ==>
        var trip := old(trips)[tripId - 1];
        var l := ApplyReturns(Logistics(trip.materials, old(stock)), backs);
        var closed := trip.(materials := l.materials,
                            assignments := ApplyAllMeters(trip.assignments, meters, ClosePrice(old(meterPrice)).value, true),
                            status := Closed);
        r == Ok(closed) && stock == l.stock && trips == old(trips)[tripId - 1 := closed]
    {
      if !(1 <= tripId <= |trips|) {
        return Fail(NotFound);
      }
      var trip := trips[tripId - 1];
      if trip.status == Closed {
        return Fail(BadRequest);
      }
      if meterPrice == Malformed {
        return Fail(ServerError);
      }
      var currentPrice := if meterPrice.Number? then meterPrice.value else 0.0;
      var l := ReturnMaterials(Logistics(trip.materials, stock), backs);
      var es := RecordMeters(trip.assignments, meters, currentPrice, true);
      var closed := trip.(materials := l.materials, assignments := es, status := Closed);
      stock := l.stock;
      trips := trips[tripId - 1 := closed];
      r := Ok(closed);
    }

    /**
     * `update_trip_progress`: the same guards as a close; only the meters and
     * earnings of the named assignments change, and the trip stays OPEN.
     */
    method UpdateTripProgress(tripId: int, meters: seq<MetersUpdate>) returns (r: Reply<WorkTrip>)
      modifies this`trips
      ensures !HasTrip(old(trips), tripId) ==> r == Fail(NotFound) && unchanged(this)
      ensures HasTrip(old(trips), tripId) && old(trips)[tripId - 1].status == Closed ==> r == Fail(BadRequest) && unchanged(this)
      ensures HasTrip(old(trips), tripId) && old(trips)[tripId - 1].status == Open && ClosePrice(old(meterPrice)).None? ==>
        r == Fail(ServerError) && unchanged(this)
      ensures HasTrip(old(trips), tripId) && old(trips)[tripId - 1].status == Open && ClosePrice(old(meterPrice)).Some? ==>
        var trip := old(trips)[tripId - 1];
        var updated := trip.(assignments := ApplyAllMeters(trip.assignments, meters, ClosePrice(old(meterPrice)).value, false));
        r == Ok(updated) && updated.status == Open && trips == old(trips)[tripId - 1 := updated]
    {
      if !(1 <= tripId <= |trips|) {
        return Fail(NotFound);
      }
      var trip := trips[tripId - 1];
      if trip.status == Closed {
        return Fail(BadRequest);
      }
      if meterPrice == Malformed {
        return Fail(ServerError);
      }
      var currentPrice := if meterPrice.Number? then meterPrice.value else 0.0;
      var es := RecordMeters(trip.assignments, meters, currentPrice, false);
      var updated := trip.(assignments := es);
      trips := trips[tripId - 1 := updated];
      r := Ok(updated);
    }

    /**
     * `save_daily_attendance`: each item overwrites the flag of its
     * employee's record on that calendar day, or adds one; the reply lists,
     * per item, the record it wrote.
     */
    method SaveDailyAttendance(items: seq<AttendanceIn>, now: DateTime) returns (saved: seq<nat>)
      requires Valid()
      modifies this`attendance
      ensures Valid()
      ensures attendance == UpsertAll(old(attendance), items, now)
      ensures SavedRows(attendance, saved, items, now)
    {
      var recs;
      recs, saved := UpsertAttendance(attendance, items, now);
      attendance := recs;
    }

    /** `register_vehicle_service`: the next service falls due 10000 km on, and the vehicle is OPERATIONAL. */
    method RegisterVehicleService(vehicleId: int, now: DateTime) returns (r: Reply<Vehicle>)
      modifies this`vehicles
      ensures vehicleId !in old(vehicles) ==> r == Fail(NotFound) && unchanged(this)
      ensures vehicleId in old(vehicles) && old(vehicles)[vehicleId].currentKm.None? ==> r == Fail(ServerError) && unchanged(this)
      ensures vehicleId in old(vehicles) && old(vehicles)[vehicleId].currentKm.Some? ==>
        var v := old(vehicles)[vehicleId];
        var serviced := v.(lastServiceDate := Some(now), nextServiceKm := Some(v.currentKm.value + 10000.0), status := "OPERATIONAL");
        r == Ok(serviced) && vehicles == old(vehicles)[vehicleId := serviced]
    {
      if vehicleId !in vehicles {
        return Fail(NotFound);
      }
      var v := vehicles[vehicleId];
      if v.currentKm.None? {
        return Fail(ServerError);
      }
      var serviced := v.(lastServiceDate := Some(now), nextServiceKm := Some(v.currentKm.value + 10000.0), status := "OPERATIONAL");
      vehicles := vehicles[vehicleId := serviced];
      r := Ok(serviced);
    }
  }
}

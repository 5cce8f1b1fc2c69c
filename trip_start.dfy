// NovaManager's `TripStart` form: the crew chosen for a trip, the materials
// loaded onto it, the checks made before it is sent and the request body
// that `create_work_trip` receives.
module TripStart {
  import opened Prelude
  import opened JsNumbers
  import opened NovaTables

  // ---------------------------------------------------------------- crew

  /**
   * The keys of `selectedEmployees`. An object's integer keys are listed by
   * `Object.keys` in increasing order, whatever order they were added in, so
   * the keys are kept as a strictly increasing sequence.
   */
  predicate Increasing(ks: seq<int>)
  {
    forall i, j :: 0 <= i < j < |ks| ==> ks[i] < ks[j]
  }

  /** `newState[id] = { is_present: true }` on an object without that key. */
  function InsertKey(ks: seq<int>, id: int): (r: seq<int>)
    requires Increasing(ks)
    ensures Increasing(r)
    ensures forall x :: x in r <==> x in ks || x == id
    decreases |ks|
  {
    if ks == [] then [id]
    else if id < ks[0] then [id] + ks
    else if id == ks[0] then ks
    else
      var rest := InsertKey(ks[1..], id);
      assert forall x :: x in rest ==> ks[0] < x;
      var r := [ks[0]] + rest;
      forall i, j | 0 <= i < j < |r|
        ensures r[i] < r[j]
      {
        assert r[j] == rest[j - 1];
        if i == 0 {
          assert rest[j - 1] in rest;
        } else {
          assert r[i] == rest[i - 1];
        }
      }
      r
  }

  /** `delete newState[id]`. */
  function RemoveKey(ks: seq<int>, id: int): (r: seq<int>)
    requires Increasing(ks)
    ensures Increasing(r)
    ensures forall x :: x in r <==> x in ks && x != id
    decreases |ks|
  {
    if ks == [] then []
    else
      var rest := RemoveKey(ks[1..], id);
      if ks[0] == id then rest
      else
        ConsIncreasing(ks[0], rest);
        [ks[0]] + rest
  }

  lemma ConsIncreasing(x: int, rest: seq<int>)
    requires Increasing(rest) && forall y :: y in rest ==> x < y
    ensures Increasing([x] + rest)
  {
    var r := [x] + rest;
    forall i, j | 0 <= i < j < |r|
      ensures r[i] < r[j]
    {
      assert r[j] == rest[j - 1] && rest[j - 1] in rest;
      if i > 0 {
        assert r[i] == rest[i - 1];
      }
    }
  }

  /** `toggleEmployee(emp)`: a selected employee is dropped, any other one is added. */
  function ToggleEmployee(ks: seq<int>, id: int): (r: seq<int>)
    requires Increasing(ks)
    ensures Increasing(r)
    ensures id in r <==> id !in ks
    ensures forall x :: x != id ==> (x in r <==> x in ks)
  {
    if id in ks then RemoveKey(ks, id) else InsertKey(ks, id)
  }

  /** Two increasing key lists with the same members are the same list. */
  lemma {:induction false} SameKeys(a: seq<int>, b: seq<int>)
    requires Increasing(a) && Increasing(b)
    requires forall x :: x in a <==> x in b
    ensures a == b
    decreases |a|
  {
    if a == [] {
      HeadIn(b);
    } else {
      assert a[0] in a && a[0] in b;
      assert b[0] in b && b[0] in a;
      LaterKeys(a);
      LaterKeys(b);
      assert a[0] == b[0];
      SameKeys(a[1..], b[1..]);
      assert a == [a[0]] + a[1..] && b == [b[0]] + b[1..];
    }
  }

  /** The first key is the least; the others are the rest of the members. */
  lemma LaterKeys(a: seq<int>)
    requires Increasing(a) && a != []
    ensures forall x :: x in a ==> a[0] <= x
    ensures forall x :: x in a[1..] <==> x in a && x != a[0]
  {
    assert forall x :: x in a ==> exists i :: 0 <= i < |a| && a[i] == x;
    assert a == [a[0]] + a[1..];
  }

  /** Toggling the same employee twice restores the selection. */
  lemma ToggleTwice(ks: seq<int>, id: int)
    requires Increasing(ks)
    ensures ToggleEmployee(ToggleEmployee(ks, id), id) == ks
  {
    SameKeys(ToggleEmployee(ToggleEmployee(ks, id), id), ks);
  }

  // ----------------------------------------------------------- materials

  /** One entry of `selectedMaterials`; the quantity is what `parseFloat` made of the field. */
  datatype MaterialLine = MaterialLine(stockItemId: int, quantityOut: JsNumber)

  /** `prev.find(m => m.stock_item_id === id)`: the quantity of the first entry for the item. */
  function Find(ms: seq<MaterialLine>, id: int): Option<JsNumber>
    decreases |ms|
  {
    if ms == [] then None
    else if ms[0].stockItemId == id then Some(ms[0].quantityOut)
    else Find(ms[1..], id)
  }

  /** At most one entry per stock item. */
  predicate UniqueIds(ms: seq<MaterialLine>)
  {
    forall i, j :: 0 <= i < j < |ms| ==> ms[i].stockItemId != ms[j].stockItemId
  }

  lemma {:induction false} FindAbsent(ms: seq<MaterialLine>, id: int)
    ensures Find(ms, id).None? <==> forall i :: 0 <= i < |ms| ==> ms[i].stockItemId != id
    decreases |ms|
  {
    if ms != [] {
      FindAbsent(ms[1..], id);
      assert forall i :: 1 <= i < |ms| ==> ms[i] == ms[1..][i - 1];
    }
  }

  /** The `prev.map(...)` branch: every entry for the item takes the new quantity. */
  function SetQuantity(ms: seq<MaterialLine>, id: int, q: JsNumber): (r: seq<MaterialLine>)
    ensures |r| == |ms|
    ensures forall i :: 0 <= i < |ms| ==> r[i].stockItemId == ms[i].stockItemId
    decreases |ms|
  {
    if ms == [] then []
    else [if ms[0].stockItemId == id then ms[0].(quantityOut := q) else ms[0]] + SetQuantity(ms[1..], id, q)
  }

  lemma {:induction false} SetQuantityFind(ms: seq<MaterialLine>, id: int, q: JsNumber, k: int)
    ensures Find(SetQuantity(ms, id, q), k) == if k == id && Find(ms, k).Some? then Some(q) else Find(ms, k)
    decreases |ms|
  {
    if ms != [] {
      SetQuantityFind(ms[1..], id, q, k);
      assert SetQuantity(ms, id, q)[1..] == SetQuantity(ms[1..], id, q);
    }
  }

  lemma {:induction false} FindAppend(ms: seq<MaterialLine>, m: MaterialLine, k: int)
    ensures Find(ms + [m], k) == if Find(ms, k).Some? then Find(ms, k) else if m.stockItemId == k then Some(m.quantityOut) else None
    decreases |ms|
  {
    if ms != [] {
      assert (ms + [m])[1..] == ms[1..] + [m];
      FindAppend(ms[1..], m, k);
    }
  }

  /**
   * `handleMaterialChange(stockId, qty)`: the item's entry takes
   * `parseFloat(qty)`, or a new entry is appended for an item not yet
   * listed; no other item's quantity changes and the list never gains a
   * second entry for an item.
   */
  function ChangeMaterial(ms: seq<MaterialLine>, id: int, qty: string): (r: seq<MaterialLine>)
    ensures Find(r, id) == Some(ParseFloat(qty))
    ensures forall k :: k != id ==> Find(r, k) == Find(ms, k)
    ensures Find(ms, id).Some? ==> |r| == |ms|
    ensures Find(ms, id).None? ==> |r| == |ms| + 1 && r[..|ms|] == ms && r[|ms|].stockItemId == id
    ensures UniqueIds(ms) ==> UniqueIds(r)
  {
    var q := ParseFloat(qty);
    if Find(ms, id).Some? then
      var r := SetQuantity(ms, id, q);
      SetQuantityFind(ms, id, q, id);
      forall k | k != id
        ensures Find(r, k) == Find(ms, k)
      {
        SetQuantityFind(ms, id, q, k);
      }
      r
    else
      var r := ms + [MaterialLine(id, q)];
      FindAppend(ms, MaterialLine(id, q), id);
      forall k | k != id
        ensures Find(r, k) == Find(ms, k)
      {
        FindAppend(ms, MaterialLine(id, q), k);
        if Find(ms, k).None? {
          assert Find(r, k) == None;
        }
      }
      FindAbsent(ms, id);
      assert r[..|ms|] == ms;
      r
  }

  /** `removeMaterial(stockId)`: every entry for the item goes, the others keep their order. */
  function RemoveMaterial(ms: seq<MaterialLine>, id: int): (r: seq<MaterialLine>)
    ensures Find(r, id) == None
    ensures forall k :: k != id ==> Find(r, k) == Find(ms, k)
    ensures forall m :: m in r <==> m in ms && m.stockItemId != id
    ensures UniqueIds(ms) ==> UniqueIds(r)
    decreases |ms|
  {
    if ms == [] then []
    else
      var rest := RemoveMaterial(ms[1..], id);
      assert forall m :: m in ms <==> m == ms[0] || m in ms[1..];
      assert UniqueIds(ms) ==> forall m :: m in rest ==> m.stockItemId != ms[0].stockItemId;
      if ms[0].stockItemId == id then rest
      else
        var r := [ms[0]] + rest;
        assert r[1..] == rest;
        r
  }

  /** Adding an item that was not listed and then removing it gives back the list. */
  lemma AddThenRemove(ms: seq<MaterialLine>, id: int, qty: string)
    requires Find(ms, id).None?
    ensures RemoveMaterial(ChangeMaterial(ms, id, qty), id) == ms
  {
    FindAbsent(ms, id);
    RemoveOfAbsent(ms, id);
    RemoveAppended(ms, MaterialLine(id, ParseFloat(qty)));
  }

  lemma {:induction false} RemoveOfAbsent(ms: seq<MaterialLine>, id: int)
    requires forall i :: 0 <= i < |ms| ==> ms[i].stockItemId != id
    ensures RemoveMaterial(ms, id) == ms
    decreases |ms|
  {
    if ms != [] {
      var rest := ms[1..];
      RemoveOfAbsent(rest, id);
      assert ms[0].stockItemId != id;
      assert RemoveMaterial(ms, id) == [ms[0]] + RemoveMaterial(rest, id);
      assert ms == [ms[0]] + rest;
    }
  }

  lemma {:induction false} RemoveAppended(ms: seq<MaterialLine>, m: MaterialLine)
    ensures RemoveMaterial(ms + [m], m.stockItemId) == RemoveMaterial(ms, m.stockItemId)
    decreases |ms|
  {
    if ms != [] {
      assert (ms + [m])[1..] == ms[1..] + [m];
      RemoveAppended(ms[1..], m);
    }
  }

  // ------------------------------------------------------------- submit

  /** Why `handleSubmit` stops before asking for confirmation. */
  datatype Refusal = MissingDescription | NoEmployees

  /** The two guards, in order: no description, then no crew. */
  function Check(description: string, crew: seq<int>): (r: Option<Refusal>)
    ensures r.None? <==> description != "" && crew != []
    ensures description == "" ==> r == Some(MissingDescription)
  {
    if description == "" then Some(MissingDescription)
    else if crew == [] then Some(NoEmployees)
    else None
  }

  /** The body posted to `/trips`; the random destination coordinates are left out. */
  datatype TripPayload = TripPayload(
    description: string, date: string, vehicleId: Option<int>,
    employees: seq<EmployeeIn>, materials: seq<MaterialIn>)

  /** `Object.keys(selectedEmployees).map(id => ({employee_id: parseInt(id), is_present: true}))`. */
  function CrewPayload(ks: seq<int>): (r: seq<EmployeeIn>)
    ensures |r| == |ks|
    ensures forall i :: 0 <= i < |ks| ==> r[i] == EmployeeIn(ks[i], true)
  {
    seq(|ks|, i requires 0 <= i < |ks| => EmployeeIn(ks[i], true))
  }

  /** `selectedMaterials.filter(m => m.quantity_out > 0)`: NaN and non-positive quantities are dropped. */
  function MaterialsPayload(ms: seq<MaterialLine>): (r: seq<MaterialIn>)
    ensures |r| <= |ms|
    ensures forall i :: 0 <= i < |r| ==> r[i].quantityOut > 0.0
    decreases |ms|
  {
    if ms == [] then []
    else
      var last := ms[|ms| - 1];
      MaterialsPayload(ms[..|ms| - 1])
        + (if last.quantityOut.Num? && last.quantityOut.value > 0.0 then [MaterialIn(last.stockItemId, last.quantityOut.value)] else [])
  }

  /** The quantity the form shows for an item, when it is a positive number; 0 otherwise. */
  function Chosen(ms: seq<MaterialLine>, k: int): real
  {
    match Find(ms, k)
    case Some(Num(v)) => if v > 0.0 then v else 0.0
    case _ => 0.0
  }

  /**
   * With one entry per item, the trip created from the payload takes from
   * each stock item exactly the positive quantity the form shows for it.
   */
  lemma {:induction false} DeductsChosenQuantity(ms: seq<MaterialLine>, k: int)
    requires UniqueIds(ms)
    ensures OutFor(MaterialsPayload(ms), k) == Chosen(ms, k)
    decreases |ms|
  {
    if ms != [] {
      var front := ms[..|ms| - 1];
      var last := ms[|ms| - 1];
      var tail := if last.quantityOut.Num? && last.quantityOut.value > 0.0 then [MaterialIn(last.stockItemId, last.quantityOut.value)] else [];
      assert MaterialsPayload(ms) == MaterialsPayload(front) + tail;
      assert UniqueIds(front);
      DeductsChosenQuantity(front, k);
      OutForAppend(MaterialsPayload(front), tail, k);
      ChosenAppend(front, last, k);
      assert ms == front + [last];
    }
  }

  lemma ChosenAppend(front: seq<MaterialLine>, last: MaterialLine, k: int)
    requires UniqueIds(front + [last])
    ensures Chosen(front + [last], k) == Chosen(front, k)
      + (if last.stockItemId == k && last.quantityOut.Num? && last.quantityOut.value > 0.0 then last.quantityOut.value else 0.0)
  {
    FindAppend(front, last, k);
    if last.stockItemId == k {
      var ms := front + [last];
      assert forall i :: 0 <= i < |front| ==> front[i].stockItemId == ms[i].stockItemId != ms[|front|].stockItemId;
      FindAbsent(front, k);
    }
  }

  lemma {:induction false} OutForAppend(a: seq<MaterialIn>, b: seq<MaterialIn>, k: int)
    requires |b| <= 1
    ensures OutFor(a + b, k) == OutFor(a, k) + OutFor(b, k)
  {
    if b == [] {
      assert a + b == a;
    } else {
      assert (a + b)[..|a + b| - 1] == a;
      assert b[..0] == [];
    }
  }

  /** What the request body holds for the form's state. */
  function PayloadOf(description: string, date: string, vehicle: Option<int>, crew: seq<int>, ms: seq<MaterialLine>): TripPayload
  {
    TripPayload(description, date, vehicle, CrewPayload(crew), MaterialsPayload(ms))
  }

  /** Every body that passes the guards names a description and at least one crew member, each sent as present. */
  lemma PayloadAfterCheck(description: string, date: string, vehicle: Option<int>, crew: seq<int>, ms: seq<MaterialLine>)
    requires Check(description, crew).None?
    ensures var p := PayloadOf(description, date, vehicle, crew, ms);
      p.description != "" && |p.employees| >= 1
      && forall i :: 0 <= i < |p.employees| ==> p.employees[i].isPresent
  {
  }

  // --------------------------------------------------------------- load

  /** The fields of `/employees`, `/attendance/{date}`, `/stock` and `/vehicles` rows the form reads. */
  datatype EmployeeRow = EmployeeRow(id: int, name: string)
  datatype AttendanceRow = AttendanceRow(employeeId: int, isPresent: bool)
  datatype StockRow = StockRow(id: int, status: StockStatus, quantity: real)
  datatype VehicleRow = VehicleRow(id: int, status: string)

  /** An employee as listed: the row and whether the day's attendance marks them present. */
  datatype RosterRow = RosterRow(id: int, name: string, todayPresent: bool)

  /** `attData.forEach(a => attMap[a.employee_id] = a.is_present)`. */
  function AttendanceMap(att: seq<AttendanceRow>): map<int, bool>
  {
    MapOf(seq(|att|, i requires 0 <= i < |att| => (att[i].employeeId, att[i].isPresent)))
  }

  /** `!!attMap[e.id]`: false when the employee has no record. */
  function PresentIn(attMap: map<int, bool>, id: int): bool
  {
    id in attMap && attMap[id]
  }

  /** The merged list: every employee in order, with the day's presence. */
  function Merge(emps: seq<EmployeeRow>, att: seq<AttendanceRow>): (r: seq<RosterRow>)
    ensures |r| == |emps|
    ensures forall i :: 0 <= i < |emps| ==> r[i].id == emps[i].id && r[i].name == emps[i].name
  {
    var m := AttendanceMap(att);
    seq(|emps|, i requires 0 <= i < |emps| => RosterRow(emps[i].id, emps[i].name, PresentIn(m, emps[i].id)))
  }

  /**
   * An employee without an attendance record for the day is listed as not
   * present; one with records takes the flag of the last of them.
   */
  lemma MergedPresence(emps: seq<EmployeeRow>, att: seq<AttendanceRow>, i: int)
    requires 0 <= i < |emps|
    ensures (forall j :: 0 <= j < |att| ==> att[j].employeeId != emps[i].id) ==> !Merge(emps, att)[i].todayPresent
    ensures forall j :: (0 <= j < |att| && att[j].employeeId == emps[i].id
                         && (forall l :: j < l < |att| ==> att[l].employeeId != emps[i].id))
                         ==> Merge(emps, att)[i].todayPresent == att[j].isPresent
  {
    var pairs := seq(|att|, j requires 0 <= j < |att| => (att[j].employeeId, att[j].isPresent));
    MapOfKeys(pairs, emps[i].id);
    forall j | 0 <= j < |att| && att[j].employeeId == emps[i].id
      && (forall l :: j < l < |att| ==> att[l].employeeId != emps[i].id)
      ensures Merge(emps, att)[i].todayPresent == att[j].isPresent
    {
      MapOfLast(pairs, j);
    }
  }

  /** `stockData.filter(s => s.status === 'AVAILABLE' && s.quantity > 0)`. */
  function Selectable(stock: seq<StockRow>): (r: seq<StockRow>)
    ensures forall s :: s in r <==> s in stock && s.status == Available && s.quantity > 0.0
    decreases |stock|
  {
    if stock == [] then []
    else
      var last := stock[|stock| - 1];
      assert forall s :: s in stock <==> s in stock[..|stock| - 1] || s == last;
      Selectable(stock[..|stock| - 1]) + (if last.status == Available && last.quantity > 0.0 then [last] else [])
  }

  /** `vehData.filter(v => v.status === 'OPERATIONAL')`. */
  function Operational(vehicles: seq<VehicleRow>): (r: seq<VehicleRow>)
    ensures forall v :: v in r <==> v in vehicles && v.status == "OPERATIONAL"
    decreases |vehicles|
  {
    if vehicles == [] then []
    else
      var last := vehicles[|vehicles| - 1];
      assert forall v :: v in vehicles <==> v in vehicles[..|vehicles| - 1] || v == last;
      Operational(vehicles[..|vehicles| - 1]) + (if last.status == "OPERATIONAL" then [last] else [])
  }

  // --------------------------------------------------------------- form

  /** What a press of the start button came to. */
  datatype Outcome =
    | Refused(reason: Refusal)
    | Cancelled                                  // the confirmation dialog was dismissed
    | Posted(payload: TripPayload, accepted: bool)

  /** The component's state. `vehicle` is the chosen option's id, or None for "-- Sin Vehículo --". */
  class TripForm {
    var description: string
    var date: string
    var vehicle: Option<int>
    var crew: seq<int>
    var materials: seq<MaterialLine>
    var roster: seq<RosterRow>
    var stockItems: seq<StockRow>
    var vehicles: seq<VehicleRow>

    /** The selection keys are increasing and no item is listed twice. */
    predicate Valid()
      reads this
    {
      Increasing(crew) && UniqueIds(materials)
    }

    constructor (today: string)
      ensures Valid()
      ensures description == "" && date == today && vehicle == None && crew == [] && materials == []
      ensures roster == [] && stockItems == [] && vehicles == []
    {
      description := "";
      date := today;
      vehicle := None;
      crew := [];
      materials := [];
      roster := [];
      stockItems := [];
      vehicles := [];
    }

    /** `loadData()` with the four answers in hand. */
    method Load(emps: seq<EmployeeRow>, att: seq<AttendanceRow>, stock: seq<StockRow>, vehs: seq<VehicleRow>)
      modifies this`roster, this`stockItems, this`vehicles
      ensures roster == Merge(emps, att) && stockItems == Selectable(stock) && vehicles == Operational(vehs)
    {
      roster := Merge(emps, att);
      stockItems := Selectable(stock);
      vehicles := Operational(vehs);
    }

    method SetDescription(text: string)
      modifies this`description
      ensures description == text
    {
      description := text;
    }

    /** The date picker; a new date makes the page run `loadData()` again, which is `Load` with that day's answers. */
    method SetDate(day: string)
      modifies this`date
      ensures date == day
    {
      date := day;
    }

    method SetVehicle(choice: Option<int>)
      modifies this`vehicle
      ensures vehicle == choice
    {
      vehicle := choice;
    }

    method Toggle(id: int)
      requires Valid()
      modifies this`crew
      ensures Valid() && crew == ToggleEmployee(old(crew), id)
    {
      crew := ToggleEmployee(crew, id);
    }

    method SetMaterial(id: int, qty: string)
      requires Valid()
      modifies this`materials
      ensures Valid() && materials == ChangeMaterial(old(materials), id, qty)
    {
      materials := ChangeMaterial(materials, id, qty);
    }

    method DropMaterial(id: int)
      requires Valid()
      modifies this`materials
      ensures Valid() && materials == RemoveMaterial(old(materials), id)
    {
      materials := RemoveMaterial(materials, id);
    }

    /**
     * `handleSubmit`: the guards, the confirmation, then the request. An
     * accepted request clears description, vehicle, crew and materials;
     * anything else leaves the form as it was.
     */
    method Submit(confirmed: bool, accepted: bool) returns (r: Outcome)
      requires Valid()
      modifies this`description, this`vehicle, this`crew, this`materials
      ensures Valid()
      ensures Check(old(description), old(crew)).Some? ==> r == Refused(Check(old(description), old(crew)).value)
      ensures Check(old(description), old(crew)).None? && !confirmed ==> r == Cancelled
      ensures Check(old(description), old(crew)).None? && confirmed ==>
        r == Posted(PayloadOf(old(description), date, old(vehicle), old(crew), old(materials)), accepted)
      ensures r.Posted? && accepted ==> description == "" && vehicle == None && crew == [] && materials == []
      ensures !(r.Posted? && accepted) ==> unchanged(this)
    {
      var problem := Check(description, crew);
      if problem.Some? {
        return Refused(problem.value);
      }
      if !confirmed {
        return Cancelled;
      }
      r := Posted(PayloadOf(description, date, vehicle, crew, materials), accepted);
      if accepted {
        description := "";
        vehicle := None;
        crew := [];
        materials := [];
      }
    }
  }
}

// The NovaManager attendance sheet: the day's flags kept per employee id,
// the cards grouped by work group, the present/absent tallies and the bulk
// save that writes one record per employee and day.
module AttendanceView {
  import opened Prelude
  import opened JsObjects
  import NovaTables

  /** A row of `/employees`; a null `group_id` is None. */
  datatype Employee = Employee(id: int, name: string, groupId: Option<int>)

  /** A row of `/employee-groups`. */
  datatype Group = Group(id: int, name: string)

  /** A row of `/attendance/{date}`. */
  datatype Record = Record(employeeId: int, isPresent: bool)

  /** A line of the bulk save's body. */
  datatype AttendanceItem = AttendanceItem(employeeId: int, isPresent: bool, date: string)

  datatype Notice = Failure(text: string) | Saved(text: string)

  /** How the bulk save's request ended. */
  datatype SaveOutcome = SaveOk | SaveRefused | Unreachable

  /** `!!attendance[id]`: an employee with no flag counts as absent. */
  predicate Flag(d: Dict<bool>, id: int)
  {
    Get(d, id) == Some(true)
  }

  /** `employees.map(e => e.id)`. */
  function Ids(emps: seq<Employee>): (r: seq<int>)
    ensures |r| == |emps| && forall i :: 0 <= i < |emps| ==> r[i] == emps[i].id
  {
    seq(|emps|, i requires 0 <= i < |emps| => emps[i].id)
  }

  /** Employee ids are primary keys. */
  predicate DistinctIds(emps: seq<Employee>)
  {
    Distinct(Ids(emps))
  }

  // ------------------------------------------------------------------ load

  /** `!date || date === 'Invalid Date' || isNaN(new Date(date).getTime())`; `parses` stands for the last test. */
  predicate DateRejected(date: string, parses: bool)
  {
    date == "" || date == "Invalid Date" || !parses
  }

  /** `attData.forEach(a => attMap[a.employee_id] = a.is_present)`, as the pairs it sets in turn. */
  function Pairs(recs: seq<Record>): (r: seq<(int, bool)>)
    ensures |r| == |recs| && forall i :: 0 <= i < |recs| ==> r[i] == (recs[i].employeeId, recs[i].isPresent)
  {
    seq(|recs|, i requires 0 <= i < |recs| => (recs[i].employeeId, recs[i].isPresent))
  }

  /**
   * The loaded sheet shows, for each employee, the flag of the last record
   * the server sent for that employee, and absent when it sent none.
   */
  lemma LoadedFlag(recs: seq<Record>, id: int)
    ensures (forall i :: 0 <= i < |recs| ==> recs[i].employeeId != id) ==> !Flag(FromPairs(Pairs(recs)), id)
    ensures forall i :: (0 <= i < |recs| && recs[i].employeeId == id && (forall j :: i < j < |recs| ==> recs[j].employeeId != id)
      ==> (Flag(FromPairs(Pairs(recs)), id) <==> recs[i].isPresent))
  {
    var ps := Pairs(recs);
    if forall i :: 0 <= i < |recs| ==> recs[i].employeeId != id {
      FromPairsAbsent(ps, id);
    }
    forall i | 0 <= i < |recs| && recs[i].employeeId == id && (forall j :: i < j < |recs| ==> recs[j].employeeId != id)
      ensures Flag(FromPairs(ps), id) <==> recs[i].isPresent
    {
      FromPairsLast(ps, i);
    }
  }

  // ---------------------------------------------------------------- toggle

  /** `toggleAttendance(empId)`: `[empId]: !prev[empId]`, so a missing flag becomes `true`. */
  function Toggle(d: Dict<bool>, id: int): (r: Dict<bool>)
    requires Ordered(d)
    ensures Ordered(r)
    ensures Flag(r, id) <==> !Flag(d, id)
    ensures forall k :: k != id ==> Get(r, k) == Get(d, k)
  {
    Put(d, id, !Flag(d, id))
  }

  /**
   * Two clicks on a card restore every card's colour; when the employee had
   * a flag already, they restore the object itself.
   */
  lemma ToggleTwice(d: Dict<bool>, id: int)
    requires Ordered(d)
    ensures forall k :: Flag(Toggle(Toggle(d, id), id), k) <==> Flag(d, k)
    ensures Get(d, id).Some? ==> Toggle(Toggle(d, id), id) == d
  {
    var t := Toggle(d, id);
    var r := Toggle(t, id);
    match Get(d, id)
    case None =>
    case Some(b) =>
      assert t == Put(d, id, !b);
      assert r == Put(t, id, b);
      forall k
        ensures Get(r, k) == Get(d, k)
      {
        if k != id {
          assert Get(r, k) == Get(t, k);
        }
      }
      Extensional(r, d);
  }

  // ---------------------------------------------------------------- tallies

  /** The loaded employees whose card shows present. */
  function PresentAmong(emps: seq<Employee>, d: Dict<bool>): (n: nat)
    ensures n <= |emps|
    decreases |emps|
  {
    if emps == [] then 0 else (if Flag(d, emps[0].id) then 1 else 0) + PresentAmong(emps[1..], d)
  }

  /**
   * The absent tally as the cards show it: the loaded employees whose card
   * shows absent. With the present cards it makes up the whole list.
   */
  function AbsentCount(emps: seq<Employee>, d: Dict<bool>): (n: nat)
    ensures n <= |emps|
    ensures n + PresentAmong(emps, d) == |emps|
    decreases |emps|
  {
    if emps == [] then 0 else (if Flag(d, emps[0].id) then 0 else 1) + AbsentCount(emps[1..], d)
  }

  /** `presentCount`: `Object.values(attendance).filter(Boolean).length`. */
  function PresentCount(d: Dict<bool>): nat
  {
    CountTrue(d)
  }

  /** `absentCount = totalEmps - presentCount`, as written. */
  function AbsentAsWritten(emps: seq<Employee>, d: Dict<bool>): int
  {
    |emps| - PresentCount(d)
  }

  /**
   * The as-written tally counts every true flag of the object, also one
   * left by a record whose employee is no longer listed (deleting an
   * employee keeps the day's attendance rows): one listed employee and two
   * such flags show an absent count of -1.
   */
  lemma AbsentAsWrittenGoesNegative()
    ensures AbsentAsWritten([Employee(1, "Ana", None)], [(7, true), (8, true)]) == -1
    ensures AbsentCount([Employee(1, "Ana", None)], [(7, true), (8, true)]) == 1
  {
    var d: Dict<bool> := [(7, true), (8, true)];
    assert d[1..][1..] == [];
    assert Get(d, 1) == None by {
      assert d[1..][0] == (8, true);
    }
  }

  /** The object's true flags are exactly the loaded employees shown present. */
  predicate Tallied(emps: seq<Employee>, d: Dict<bool>)
  {
    PresentCount(d) == PresentAmong(emps, d)
  }

  /** While the flags are tallied, the as-written absent count is the cards' own. */
  lemma TalliedAbsent(emps: seq<Employee>, d: Dict<bool>)
    requires Tallied(emps, d)
    ensures AbsentAsWritten(emps, d) == AbsentCount(emps, d)
  {
  }

  /** Changing the flag of one key changes the present cards by that key's cards alone. */
  lemma {:induction false} PresentAmongOneChange(emps: seq<Employee>, d1: Dict<bool>, d2: Dict<bool>, id: int)
    requires DistinctIds(emps)
    requires forall k :: k != id ==> (Flag(d1, k) <==> Flag(d2, k))
    ensures PresentAmong(emps, d2) == PresentAmong(emps, d1)
      + (if id in Ids(emps) then (if Flag(d2, id) then 1 else 0) - (if Flag(d1, id) then 1 else 0) else 0)
    decreases |emps|
  {
    if emps != [] {
      var rest := emps[1..];
      assert Ids(emps) == [emps[0].id] + Ids(rest);
      assert DistinctIds(rest) by {
        forall i, j | 0 <= i < j < |rest|
          ensures Ids(rest)[i] != Ids(rest)[j]
        {
          assert Ids(emps)[i + 1] != Ids(emps)[j + 1];
        }
      }
      if emps[0].id == id {
        assert id !in Ids(rest) by {
          forall j | 0 <= j < |rest|
            ensures Ids(rest)[j] != id
          {
            assert Ids(emps)[0] != Ids(emps)[j + 1];
          }
        }
      }
      PresentAmongOneChange(rest, d1, d2, id);
    }
  }

  /** When every loaded card shows the same flag, the present tally is all or none. */
  lemma {:induction false} PresentAmongUniform(emps: seq<Employee>, d: Dict<bool>, v: bool)
    requires forall i :: 0 <= i < |emps| ==> (Flag(d, emps[i].id) <==> v)
    ensures PresentAmong(emps, d) == if v then |emps| else 0
    decreases |emps|
  {
    if emps != [] {
      PresentAmongUniform(emps[1..], d, v);
    }
  }

  /** `markAll(status)` leaves the sheet tallied: present is everyone or no one. */
  lemma MarkAllTallies(emps: seq<Employee>, v: bool)
    requires DistinctIds(emps)
    ensures Tallied(emps, Uniform(Ids(emps), v))
    ensures PresentCount(Uniform(Ids(emps), v)) == if v then |emps| else 0
  {
    var d := Uniform(Ids(emps), v);
    UniformCount(Ids(emps), v);
    forall i | 0 <= i < |emps|
      ensures Flag(d, emps[i].id) <==> v
    {
      UniformSpec(Ids(emps), v, emps[i].id);
    }
    PresentAmongUniform(emps, d, v);
  }

  /** A click on a loaded employee's card keeps the sheet tallied. */
  lemma ToggleKeepsTally(emps: seq<Employee>, d: Dict<bool>, id: int)
    requires Ordered(d) && DistinctIds(emps) && id in Ids(emps)
    requires Tallied(emps, d)
    ensures Tallied(emps, Toggle(d, id))
  {
    CountTruePut(d, id, !Flag(d, id));
    PresentAmongOneChange(emps, d, Toggle(d, id), id);
  }

  // ----------------------------------------------------------------- cards

  /** `!e.group_id`: no group, or group id 0. */
  predicate Unassigned(e: Employee)
  {
    e.groupId == None || e.groupId == Some(0)
  }

  /** `employees.filter(e => e.group_id === group.id)`. */
  function Members(emps: seq<Employee>, gid: int): (r: seq<Employee>)
    ensures |r| <= |emps|
    ensures forall e :: e in r <==> e in emps && e.groupId == Some(gid)
    decreases |emps|
  {
    if emps == [] then []
    else
      var front := Members(emps[..|emps| - 1], gid);
      var last := emps[|emps| - 1];
      assert emps == emps[..|emps| - 1] + [last];
      if last.groupId == Some(gid) then front + [last] else front
  }

  /** `employees.filter(e => !e.group_id)`. */
  function Loose(emps: seq<Employee>): (r: seq<Employee>)
    ensures |r| <= |emps|
    ensures forall e :: e in r <==> e in emps && Unassigned(e)
    decreases |emps|
  {
    if emps == [] then []
    else
      var front := Loose(emps[..|emps| - 1]);
      var last := emps[|emps| - 1];
      assert emps == emps[..|emps| - 1] + [last];
      if Unassigned(last) then front + [last] else front
  }

  /** Every card on the sheet: the groups' sections in order, then the unassigned section. */
  function GroupCards(emps: seq<Employee>, groups: seq<Group>): seq<Employee>
    decreases |groups|
  {
    if groups == [] then [] else GroupCards(emps, groups[..|groups| - 1]) + Members(emps, groups[|groups| - 1].id)
  }

  function Cards(emps: seq<Employee>, groups: seq<Group>): seq<Employee>
  {
    GroupCards(emps, groups) + Loose(emps)
  }

  lemma {:induction false} GroupCardsSpec(emps: seq<Employee>, groups: seq<Group>, e: Employee)
    ensures e in GroupCards(emps, groups) <==> e in emps && exists g :: 0 <= g < |groups| && e.groupId == Some(groups[g].id)
    decreases |groups|
  {
    if groups != [] {
      var front, last := groups[..|groups| - 1], groups[|groups| - 1];
      GroupCardsSpec(emps, front, e);
      assert GroupCards(emps, groups) == GroupCards(emps, front) + Members(emps, last.id);
      var inAll := exists g :: 0 <= g < |groups| && e.groupId == Some(groups[g].id);
      var inFront := exists g :: 0 <= g < |front| && e.groupId == Some(front[g].id);
      if inAll {
        var g :| 0 <= g < |groups| && e.groupId == Some(groups[g].id);
        if g < |front| {
          assert front[g] == groups[g];
        }
      }
      if inFront {
        var g :| 0 <= g < |front| && e.groupId == Some(front[g].id);
        assert groups[g] == front[g];
      }
      assert inAll <==> inFront || e.groupId == Some(last.id);
    }
  }

  /**
   * An employee gets a card exactly when it has no group or its group is
   * listed; one whose group id names no listed group is not shown at all
   * and so cannot be marked, though the save still sends it.
   */
  lemma CardShown(emps: seq<Employee>, groups: seq<Group>, e: Employee)
    ensures e in Cards(emps, groups) <==>
      e in emps && (Unassigned(e) || exists g :: 0 <= g < |groups| && e.groupId == Some(groups[g].id))
  {
    GroupCardsSpec(emps, groups, e);
  }

  // ------------------------------------------------------------------ save

  /** `employees.map(emp => ({employee_id, is_present: !!attendance[emp.id], date}))`. */
  function Payload(emps: seq<Employee>, d: Dict<bool>, date: string): (r: seq<AttendanceItem>)
    ensures |r| == |emps|
    ensures forall i :: 0 <= i < |emps| ==> r[i].employeeId == emps[i].id && r[i].date == date
  {
    seq(|emps|, i requires 0 <= i < |emps| => AttendanceItem(emps[i].id, Flag(d, emps[i].id), date))
  }

  /** The body as the server reads it, its `date` text parsed to `day`. */
  function ToRequest(items: seq<AttendanceItem>, day: NovaTables.DateTime): (r: seq<NovaTables.AttendanceIn>)
    ensures |r| == |items|
    ensures forall i :: 0 <= i < |items| ==> r[i] == NovaTables.AttendanceIn(items[i].employeeId, items[i].isPresent, Some(day))
  {
    seq(|items|, i requires 0 <= i < |items| => NovaTables.AttendanceIn(items[i].employeeId, items[i].isPresent, Some(day)))
  }

  /**
   * After the bulk save, the table records for every loaded employee, on
   * the sheet's day, the flag its card showed: present or, with no flag,
   * absent.
   */
  lemma SavedAsShown(recs: seq<NovaTables.AttendanceRecord>, emps: seq<Employee>, d: Dict<bool>, date: string,
                     day: NovaTables.DateTime, now: NovaTables.DateTime, i: int)
    requires DistinctIds(emps) && 0 <= i < |emps|
    ensures NovaTables.RecordedAs(NovaTables.UpsertAll(recs, ToRequest(Payload(emps, d, date), day), now),
                                  emps[i].id, day, Flag(d, emps[i].id))
  {
    var items := ToRequest(Payload(emps, d, date), day);
    assert forall j :: i < j < |items| ==> items[j].employeeId == Ids(emps)[j] != Ids(emps)[i];
    NovaTables.ItemRecorded(recs, items, now, i);
  }

  // ------------------------------------------------------------------ state

  /** The component's state. */
  class Sheet {
    var employees: seq<Employee>
    var groups: seq<Group>
    var attendance: Dict<bool>
    var date: string
    var notice: Option<Notice>

    predicate Valid()
      reads this
    {
      Ordered(attendance)
    }

    constructor (today: string)
      ensures Valid()
      ensures employees == [] && groups == [] && attendance == [] && date == today && notice == None
    {
      employees := [];
      groups := [];
      attendance := [];
      date := today;
      notice := None;
    }

    /**
     * `loadData()`. `parses` is whether the date text makes a valid `Date`;
     * `answered` is whether all three requests came back ok; a None list
     * is a body that is not an array.
     */
    method Load(parses: bool, answered: bool, emps: Option<seq<Employee>>, grps: Option<seq<Group>>, att: Option<seq<Record>>)
      requires Valid()
      modifies this`employees, this`groups, this`attendance, this`notice
      ensures Valid()
      ensures DateRejected(date, parses) ==>
        notice == Some(Failure("Fecha inválida detectada."))
        && employees == old(employees) && groups == old(groups) && attendance == old(attendance)
      ensures !DateRejected(date, parses) && !answered ==>
        notice == Some(Failure("Error cargando datos de asistencia."))
        && employees == old(employees) && groups == old(groups) && attendance == old(attendance)
      ensures !DateRejected(date, parses) && answered ==>
        groups == (if grps.Some? then grps.value else [])
        && employees == (if emps.Some? then emps.value else [])
        && attendance == FromPairs(Pairs(if att.Some? then att.value else []))
        && notice == (if emps.Some? then old(notice) else Some(Failure("Error: Datos de empleados inválidos.")))
    {
      if DateRejected(date, parses) {
        notice := Some(Failure("Fecha inválida detectada."));
        return;
      }
      if !answered {
        notice := Some(Failure("Error cargando datos de asistencia."));
        return;
      }
      groups := if grps.Some? then grps.value else [];
      var attMap := FillPairs(Pairs(if att.Some? then att.value else []));
      if emps.Some? {
        employees := emps.value;
      } else {
        employees := [];
        notice := Some(Failure("Error: Datos de empleados inválidos."));
      }
      attendance := attMap;
    }

    /** A click on a card. */
    method ToggleCard(id: int)
      requires Valid()
      modifies this`attendance
      ensures Valid()
      ensures attendance == Toggle(old(attendance), id)
    {
      attendance := Toggle(attendance, id);
    }

    /** `markAll(status)`: a fresh object holding `status` for every loaded employee and nothing else. */
    method MarkAll(status: bool)
      requires Valid()
      modifies this`attendance
      ensures Valid()
      ensures attendance == Uniform(Ids(employees), status)
      ensures forall k :: Get(attendance, k) == if k in Ids(employees) then Some(status) else None
    {
      attendance := FillAll(Ids(employees), status);
    }

    /** `handleSave`'s request body. */
    method SaveBody() returns (body: seq<AttendanceItem>)
      ensures body == Payload(employees, attendance, date)
    {
      body := Payload(employees, attendance, date);
    }

    /** The answer to the save. */
    method SaveAnswered(outcome: SaveOutcome)
      modifies this`notice
      ensures notice == Some(match outcome
        case SaveOk => Saved("Asistencia Guardada.")
        case SaveRefused => Failure("Error al Guardar.")
        case Unreachable => Failure("Error de Conexión."))
    {
      match outcome
      case SaveOk => notice := Some(Saved("Asistencia Guardada."));
      case SaveRefused => notice := Some(Failure("Error al Guardar."));
      case Unreachable => notice := Some(Failure("Error de Conexión."));
    }
  }
}

// NovaManager's `ActiveTrips` board: the trip list with its search and
// status filter, the counters above it, the CSV export, and the close form
// with its returned quantities, meters and bulk meter tools.
module ActiveTrips {
  import opened Prelude
  import opened JsText
  import opened JsNumbers
  import opened JsObjects
  import opened DateUtils
  import opened NovaTables

  /** A trip as `/trips` returns it; `driverName` is read but the back end never sends one. */
  datatype MaterialRow = MaterialRow(id: int, stockItemId: int, quantityOut: real, quantityReturned: real)
  datatype AssignmentRow = AssignmentRow(id: int, employeeId: int, metersDone: real)
  datatype TripRow = TripRow(
    id: int, description: string, driverName: Option<string>, date: string, status: TripStatus,
    materials: seq<MaterialRow>, assignments: seq<AssignmentRow>)

  /** The status text the back end writes: "OPEN" on creation, "CLOSED" once closed. */
  function StatusText(s: TripStatus): string
  {
    match s
    case Open => "OPEN"
    case Closed => "CLOSED"
  }

  // ------------------------------------------------------------- filter

  /** The three filter buttons: TODOS, ABIERTOS, COMPLETADOS. */
  datatype StatusChoice = AllTrips | OpenTrips | DoneTrips

  /** The status code each button sets, as written: the third one is 'COMPLETED'. */
  function CodeAsWritten(c: StatusChoice): string
  {
    match c
    case AllTrips => "ALL"
    case OpenTrips => "OPEN"
    case DoneTrips => "COMPLETED"
  }

  /** The status code each button is meant to set: the third one names closed trips. */
  function Code(c: StatusChoice): string
  {
    match c
    case AllTrips => "ALL"
    case OpenTrips => "OPEN"
    case DoneTrips => "CLOSED"
  }

  /** `matchesSearch`: description or driver contain the term, ignoring case, or the id's digits contain it. */
  predicate MatchesSearch(t: TripRow, term: string)
  {
    Includes(ToLower(t.description), ToLower(term))
    || (t.driverName.Some? && Includes(ToLower(t.driverName.value), ToLower(term)))
    || Includes(IntToString(t.id), term)
  }

  /** `matchesStatus` for the filter code in effect. */
  predicate MatchesStatus(t: TripRow, code: string)
  {
    code == "ALL" || StatusText(t.status) == code
  }

  /** `filteredTrips`: the trips matching both, in list order. */
  function Filtered(trips: seq<TripRow>, term: string, code: string): (r: seq<TripRow>)
    ensures |r| <= |trips|
    ensures forall t :: t in r <==> t in trips && MatchesSearch(t, term) && MatchesStatus(t, code)
    decreases |trips|
  {
    if trips == [] then []
    else
      var last := trips[|trips| - 1];
      assert forall t :: t in trips <==> t in trips[..|trips| - 1] || t == last;
      Filtered(trips[..|trips| - 1], term, code) + (if MatchesSearch(last, term) && MatchesStatus(last, code) then [last] else [])
  }

  /** The filter keeps list order: filtering a joined list joins the filtered parts. */
  lemma {:induction false} FilteredConcat(a: seq<TripRow>, b: seq<TripRow>, term: string, code: string)
    ensures Filtered(a + b, term, code) == Filtered(a, term, code) + Filtered(b, term, code)
    decreases |b|
  {
    if b == [] {
      assert a + b == a;
    } else {
      var front := b[..|b| - 1];
      var last := b[|b| - 1];
      assert (a + b)[..|a + b| - 1] == a + front;
      assert (a + b)[|a + b| - 1] == last;
      FilteredConcat(a, front, term, code);
    }
  }

  /** With no search text, the "ALL" filter shows every trip, in order. */
  lemma {:induction false} EmptySearchShowsAll(trips: seq<TripRow>)
    ensures Filtered(trips, "", Code(AllTrips)) == trips
    decreases |trips|
  {
    if trips != [] {
      var front := trips[..|trips| - 1];
      EmptySearchShowsAll(front);
      IncludesAt(ToLower(trips[|trips| - 1].description), "", 0);
      assert trips == front + [trips[|trips| - 1]];
    }
  }

  /** As written, the COMPLETADOS button matches no trip the back end sends: it always shows an empty list. */
  lemma CompletedFilterIsEmpty(trips: seq<TripRow>, term: string)
    ensures Filtered(trips, term, CodeAsWritten(DoneTrips)) == []
  {
    var r := Filtered(trips, term, CodeAsWritten(DoneTrips));
    forall t | t in trips
      ensures !MatchesStatus(t, "COMPLETED")
    {
      assert |StatusText(t.status)| != |"COMPLETED"|;
    }
    HeadIn(r);
  }

  /** With the intended codes the three buttons split the list: all trips, the open ones and the closed ones. */
  lemma StatusButtonsPartition(trips: seq<TripRow>, term: string, t: TripRow)
    requires t in trips && MatchesSearch(t, term)
    ensures t in Filtered(trips, term, Code(AllTrips))
    ensures t in Filtered(trips, term, Code(OpenTrips)) <==> t.status == Open
    ensures t in Filtered(trips, term, Code(DoneTrips)) <==> t.status == Closed
  {
    assert |"OPEN"| != |"CLOSED"|;
  }

  // --------------------------------------------------------------- KPIs

  /** The counters above the list. */
  datatype Kpi = Kpi(active: nat, completedToday: nat, total: nat)

  /** Number of trips with the given status text. */
  function CountStatus(trips: seq<TripRow>, code: string): (n: nat)
    ensures n <= |trips|
    decreases |trips|
  {
    if trips == [] then 0
    else CountStatus(trips[..|trips| - 1], code) + (if StatusText(trips[|trips| - 1].status) == code then 1 else 0)
  }

  /** The count is the length of the list the status filter shows for that code with no search text. */
  lemma {:induction false} CountStatusIsFilter(trips: seq<TripRow>, code: string)
    requires code != "ALL"
    ensures CountStatus(trips, code) == |Filtered(trips, "", code)|
    decreases |trips|
  {
    if trips != [] {
      CountStatusIsFilter(trips[..|trips| - 1], code);
      IncludesAt(ToLower(trips[|trips| - 1].description), "", 0);
    }
  }

  /** Number of trips with the given status text dated `today`. */
  function CountStatusOn(trips: seq<TripRow>, code: string, today: string): (n: nat)
    ensures n <= CountStatus(trips, code)
    decreases |trips|
  {
    if trips == [] then 0
    else
      var t := trips[|trips| - 1];
      CountStatusOn(trips[..|trips| - 1], code, today) + (if StatusText(t.status) == code && DatePart(t.date) == today then 1 else 0)
  }

  /** `kpiData`; "today" compares the date part of the trip's date with today's. */
  function KpiOf(trips: seq<TripRow>, today: string, doneCode: string): Kpi
  {
    Kpi(CountStatus(trips, "OPEN"), CountStatusOn(trips, doneCode, today), |trips|)
  }

  /** As written the "finished today" counter looks for 'COMPLETED' and is always 0. */
  lemma {:induction false} CompletedTodayIsZero(trips: seq<TripRow>, today: string)
    ensures KpiOf(trips, today, CodeAsWritten(DoneTrips)).completedToday == 0
    decreases |trips|
  {
    if trips != [] {
      CompletedTodayIsZero(trips[..|trips| - 1], today);
      assert |StatusText(trips[|trips| - 1].status)| != |"COMPLETED"|;
    }
  }

  /** With the intended code, active and closed trips together are all trips, and the closed-today count is among them. */
  lemma {:induction false} KpiAddsUp(trips: seq<TripRow>, today: string)
    ensures var k := KpiOf(trips, today, Code(DoneTrips));
      k.active + CountStatus(trips, "CLOSED") == k.total && k.completedToday <= k.total - k.active
    decreases |trips|
  {
    if trips != [] {
      KpiAddsUp(trips[..|trips| - 1], today);
      assert |"OPEN"| != |"CLOSED"|;
    }
  }

  // ---------------------------------------------------------------- CSV

  const Headers: seq<string> := ["ID", "Description", "Driver", "Date", "Status", "Materials Count", "Staff Count"]

  function Quote(s: string): string
  {
    "\"" + s + "\""
  }

  /** One exported line: id, quoted description, quoted driver or N/A, date, status, material and staff counts. */
  function CsvRow(t: TripRow): string
  {
    Join([IntToString(t.id), Quote(t.description), Quote(if t.driverName.Some? && t.driverName.value != "" then t.driverName.value else "N/A"),
          t.date, StatusText(t.status), NatToString(|t.materials|), NatToString(|t.assignments|)], ',')
  }

  function CsvRows(trips: seq<TripRow>): (r: seq<string>)
    ensures |r| == |trips| && forall i :: 0 <= i < |trips| ==> r[i] == CsvRow(trips[i])
  {
    seq(|trips|, i requires 0 <= i < |trips| => CsvRow(trips[i]))
  }

  /** `handleExportCSV`'s file content. */
  function Csv(trips: seq<TripRow>): string
  {
    Join([Join(Headers, ',')] + CsvRows(trips), '\n')
  }

  /** The text fields a CSV line copies verbatim hold no line break. */
  predicate SingleLine(t: TripRow)
  {
    '\n' !in t.description && '\n' !in t.date && (t.driverName.Some? ==> '\n' !in t.driverName.value)
  }

  lemma RowIsOneLine(t: TripRow)
    requires SingleLine(t)
    ensures '\n' !in CsvRow(t)
  {
    var parts := [IntToString(t.id), Quote(t.description), Quote(if t.driverName.Some? && t.driverName.value != "" then t.driverName.value else "N/A"),
                  t.date, StatusText(t.status), NatToString(|t.materials|), NatToString(|t.assignments|)];
    DigitsLackNewline(NatToString(if t.id < 0 then -t.id else t.id));
    DigitsLackNewline(NatToString(|t.materials|));
    DigitsLackNewline(NatToString(|t.assignments|));
    assert '\n' !in IntToString(t.id);
    JoinLacks(parts, ',', '\n');
  }

  lemma DigitsLackNewline(s: string)
    requires AllDigits(s)
    ensures '\n' !in s
  {
  }

  /**
   * The export has the header line and then exactly one line per trip
   * shown, in order, as long as no description, driver or date holds a
   * line break.
   */
  lemma CsvLines(trips: seq<TripRow>)
    requires forall i :: 0 <= i < |trips| ==> SingleLine(trips[i])
    ensures Split(Csv(trips), '\n') == [Join(Headers, ',')] + CsvRows(trips)
    ensures |Split(Csv(trips), '\n')| == |trips| + 1
  {
    var lines := [Join(Headers, ',')] + CsvRows(trips);
    JoinLacks(Headers, ',', '\n');
    forall i | 0 <= i < |lines|
      ensures '\n' !in lines[i]
    {
      if i > 0 {
        RowIsOneLine(trips[i - 1]);
      }
    }
    SplitJoin(lines, '\n');
  }

  // --------------------------------------------------------- close form

  /**
   * A value of the `returnMaterials` or `production` objects: a number
   * seeded from the trip or set by "Todos", the text typed in a field, or
   * the `toFixed(2)` text "Dividir" stores.
   */
  datatype Entry = Stored(x: JsNumber) | Typed(text: string) | Fixed(x: JsNumber)

  /** `x.toFixed(2)` read back: the value rounded to cents, halves away from zero. */
  function Round2(x: real): real
  {
    if x >= 0.0 then ((x * 100.0 + 0.5).Floor as real) / 100.0
    else -((((-x) * 100.0 + 0.5).Floor as real) / 100.0)
  }

  /** Rounding to cents moves a value by half a cent at most. */
  lemma RoundClose(x: real)
    ensures -0.005 <= Round2(x) - x <= 0.005
  {
    if x >= 0.0 {
      var f := (x * 100.0 + 0.5).Floor;
      assert f as real <= x * 100.0 + 0.5 < f as real + 1.0;
    } else {
      var f := ((-x) * 100.0 + 0.5).Floor;
      assert f as real <= (-x) * 100.0 + 0.5 < f as real + 1.0;
    }
  }

  /** `parseFloat(v || 0)`: a falsy value reads as 0. */
  function Read(e: Entry): JsNumber
  {
    match e
    case Stored(x) => Num(OrZero(x))
    case Typed(s) => if s == "" then Num(0.0) else ParseFloat(s)
    case Fixed(x) => if x.Num? then Num(Round2(x.value)) else NaN
  }

  /** `Object.entries(obj).map(([id, v]) => ({id: parseInt(id), ...: parseFloat(v || 0)}))`, in key order. */
  function EntriesPayload(d: Dict<Entry>): (r: seq<(int, JsNumber)>)
    ensures |r| == |d| && forall i :: 0 <= i < |d| ==> r[i] == (d[i].0, Read(d[i].1))
  {
    seq(|d|, i requires 0 <= i < |d| => (d[i].0, Read(d[i].1)))
  }

  /** The bodies sent to `/trips/{id}/progress` and `/trips/{id}/close`. */
  datatype ClosePayload = ClosePayload(materials: seq<(int, JsNumber)>, employees: seq<(int, JsNumber)>)

  function ReturnPairs(ms: seq<MaterialRow>): seq<(int, Entry)>
  {
    seq(|ms|, i requires 0 <= i < |ms| => (ms[i].id, Stored(Num(ms[i].quantityReturned))))
  }

  function MeterPairs(rows: seq<AssignmentRow>): seq<(int, Entry)>
  {
    seq(|rows|, i requires 0 <= i < |rows| => (rows[i].id, Stored(Num(rows[i].metersDone))))
  }

  function AssignmentIds(rows: seq<AssignmentRow>): (r: seq<int>)
    ensures |r| == |rows| && forall i :: 0 <= i < |rows| ==> r[i] == rows[i].id
  {
    seq(|rows|, i requires 0 <= i < |rows| => rows[i].id)
  }

  /** Row ids are unique within a trip. */
  predicate UniqueRows(t: TripRow)
  {
    (forall i, j :: 0 <= i < j < |t.materials| ==> t.materials[i].id != t.materials[j].id)
    && (forall i, j :: 0 <= i < j < |t.assignments| ==> t.assignments[i].id != t.assignments[j].id)
  }

  /** Opening the form seeds every material with its returned quantity and every assignment with its meters, and nothing else. */
  lemma SeedSpec(t: TripRow)
    requires UniqueRows(t)
    ensures forall i :: 0 <= i < |t.materials| ==>
      Get(FromPairs(ReturnPairs(t.materials)), t.materials[i].id) == Some(Stored(Num(t.materials[i].quantityReturned)))
    ensures forall i :: 0 <= i < |t.assignments| ==>
      Get(FromPairs(MeterPairs(t.assignments)), t.assignments[i].id) == Some(Stored(Num(t.assignments[i].metersDone)))
    ensures forall k :: (forall i :: 0 <= i < |t.assignments| ==> t.assignments[i].id != k) ==>
      Get(FromPairs(MeterPairs(t.assignments)), k) == None
  {
    var rp := ReturnPairs(t.materials);
    var mp := MeterPairs(t.assignments);
    forall i | 0 <= i < |t.materials|
      ensures Get(FromPairs(rp), t.materials[i].id) == Some(Stored(Num(t.materials[i].quantityReturned)))
    {
      FromPairsLast(rp, i);
    }
    forall i | 0 <= i < |t.assignments|
      ensures Get(FromPairs(mp), t.assignments[i].id) == Some(Stored(Num(t.assignments[i].metersDone)))
    {
      FromPairsLast(mp, i);
    }
    forall k | forall i :: 0 <= i < |t.assignments| ==> t.assignments[i].id != k
      ensures Get(FromPairs(mp), k) == None
    {
      FromPairsAbsent(mp, k);
    }
  }

  /** `total / count` for a count of people: NaN stays NaN. */
  function EvenShare(total: JsNumber, count: nat): (r: JsNumber)
    requires count > 0
    ensures r.Num? <==> total.Num?
  {
    if total.Num? then Num(total.value / count as real) else NaN
  }

  /** What "Dividir" gives each of `count` people: the total's share, rounded to cents. */
  lemma SplitShareClose(total: real, count: nat)
    requires count > 0
    ensures var share := Round2(total / count as real);
      -0.005 * count as real <= share * count as real - total <= 0.005 * count as real
  {
    var c := count as real;
    var q := total / c;
    RoundClose(q);
    assert q * c == total;
    ScaledError(Round2(q), q, count, total);
  }

  /** An error of at most half a cent per share is at most `n` half cents over `n` shares. */
  lemma ScaledError(r: real, q: real, n: nat, total: real)
    requires q * n as real == total && -0.005 <= r - q <= 0.005
    ensures -0.005 * n as real <= r * n as real - total <= 0.005 * n as real
  {
    var c := n as real;
    assert r * c - total == (r - q) * c;
    ScaleNonNegative((r - q) + 0.005, n);
    ScaleNonNegative(0.005 - (r - q), n);
  }

  /** A non-negative value times a count is non-negative. */
  lemma {:induction false} ScaleNonNegative(x: real, n: nat)
    requires x >= 0.0
    ensures x * n as real >= 0.0
  {
    if n > 0 {
      ScaleNonNegative(x, n - 1);
      assert x * n as real == x * (n - 1) as real + x;
    }
  }

  /** The board's state. */
  class Board {
    var allTrips: seq<TripRow>
    var searchTerm: string
    var choice: StatusChoice
    var editing: Option<TripRow>
    var returned: Dict<Entry>
    var production: Dict<Entry>

    predicate Valid()
      reads this
    {
      Ordered(returned) && Ordered(production)
    }

    constructor ()
      ensures Valid()
      ensures allTrips == [] && searchTerm == "" && choice == OpenTrips && editing == None
      ensures returned == [] && production == []
    {
      allTrips := [];
      searchTerm := "";
      choice := OpenTrips;
      editing := None;
      returned := [];
      production := [];
    }

    /** The list the page shows under the toolbar, with the codes as written: empty under COMPLETADOS. */
    function ShownAsWritten(): (r: seq<TripRow>)
      reads this
      ensures choice == DoneTrips ==> r == []
      ensures choice != DoneTrips ==> r == Shown()
    {
      CompletedFilterIsEmpty(allTrips, searchTerm);
      Filtered(allTrips, searchTerm, CodeAsWritten(choice))
    }

    /** The list with the intended codes: COMPLETADOS shows the closed trips. */
    function Shown(): (r: seq<TripRow>)
      reads this
      ensures forall t :: t in r <==>
        (t in allTrips && MatchesSearch(t, searchTerm) && (choice == OpenTrips ==> t.status == Open) && (choice == DoneTrips ==> t.status == Closed))
    {
      assert |"OPEN"| != |"CLOSED"|;
      Filtered(allTrips, searchTerm, Code(choice))
    }

    method Load(trips: seq<TripRow>)
      modifies this`allTrips
      ensures allTrips == trips
    {
      allTrips := trips;
    }

    method SetSearch(term: string)
      modifies this`searchTerm
      ensures searchTerm == term
    {
      searchTerm := term;
    }

    method SetChoice(c: StatusChoice)
      modifies this`choice
      ensures choice == c
    {
      choice := c;
    }

    /** `handleOpenCloseForm(trip)`: the two objects are filled afresh from the trip's rows. */
    method OpenCloseForm(t: TripRow)
      modifies this`editing, this`returned, this`production
      ensures Valid() && editing == Some(t)
      ensures returned == FromPairs(ReturnPairs(t.materials))
      ensures production == FromPairs(MeterPairs(t.assignments))
    {
      editing := Some(t);
      returned := FillPairs(ReturnPairs(t.materials));
      production := FillPairs(MeterPairs(t.assignments));
    }

    /** Typing in a material's "Devuelto" field. */
    method EditReturn(id: int, text: string)
      requires Valid()
      modifies this`returned
      ensures Valid() && returned == Put(old(returned), id, Typed(text))
    {
      returned := Put(returned, id, Typed(text));
    }

    /** Typing in an assignment's meters field. */
    method EditMeters(id: int, text: string)
      requires Valid()
      modifies this`production
      ensures Valid() && production == Put(old(production), id, Typed(text))
    {
      production := Put(production, id, Typed(text));
    }

    /** "Todos": every assignment of the trip gets the typed number; nothing happens on an empty field or a trip without assignments. */
    method BulkAll(val: string)
      requires Valid() && editing.Some?
      modifies this`production
      ensures Valid()
      ensures val == "" || editing.value.assignments == [] ==> production == old(production)
      ensures val != "" && editing.value.assignments != [] ==>
        forall k :: Get(production, k) == if k in AssignmentIds(editing.value.assignments) then Some(Stored(ParseFloat(val))) else None
    {
      if val == "" {
        return;
      }
      var meters := ParseFloat(val);
      var count := |editing.value.assignments|;
      if count == 0 {
        return;
      }
      production := FillAll(AssignmentIds(editing.value.assignments), Stored(meters));
    }

    /** "Dividir": every assignment gets the typed total divided by their number, as `toFixed(2)` text. */
    method BulkSplit(val: string)
      requires Valid() && editing.Some?
      modifies this`production
      ensures Valid()
      ensures val == "" || editing.value.assignments == [] ==> production == old(production)
      ensures val != "" && editing.value.assignments != [] ==>
        forall k :: Get(production, k) ==
          if k in AssignmentIds(editing.value.assignments) then Some(Fixed(EvenShare(ParseFloat(val), |editing.value.assignments|))) else None
    {
      if val == "" {
        return;
      }
      var total := ParseFloat(val);
      var count := |editing.value.assignments|;
      if count == 0 {
        return;
      }
      production := FillAll(AssignmentIds(editing.value.assignments), Fixed(EvenShare(total, count)));
    }

    /** `handleSaveProgress`'s body: the meters only, materials left empty. */
    method ProgressPayload() returns (p: ClosePayload)
      ensures p == ClosePayload([], EntriesPayload(production))
    {
      p := ClosePayload([], EntriesPayload(production));
    }

    /** `handleSubmitClose`'s body: every edited material and every assignment's meters. */
    method CloseRequest() returns (p: ClosePayload)
      ensures p == ClosePayload(EntriesPayload(returned), EntriesPayload(production))
    {
      p := ClosePayload(EntriesPayload(returned), EntriesPayload(production));
    }

    /** The close request's answer: a success leaves the form. */
    method CloseAnswered(ok: bool)
      modifies this`editing
      ensures ok ==> editing == None
      ensures !ok ==> editing == old(editing)
    {
      if ok {
        editing := None;
      }
    }
  }

  /** Once the form is open on a trip with unique rows, the progress body names each assignment exactly once, in id order. */
  lemma ProgressNamesEachAssignment(t: TripRow, production: Dict<Entry>)
    requires UniqueRows(t) && production == FromPairs(MeterPairs(t.assignments))
    ensures var ids := Keys(production);
      forall i :: 0 <= i < |t.assignments| ==> t.assignments[i].id in ids
    ensures forall i, j :: 0 <= i < j < |production| ==> production[i].0 < production[j].0
  {
    SeedSpec(t);
    forall i | 0 <= i < |t.assignments|
      ensures t.assignments[i].id in Keys(production)
    {
      GetSome(production, t.assignments[i].id);
    }
  }
}

// The NovaManager fleet board: each vehicle card's service-status colour,
// type icon and mileage bar, and the add/edit form.
module FleetManager {
  import opened Prelude
  import opened NovaTables

  /** The four card styles `getStatusColor` returns. */
  datatype Tone = Red | Orange | Yellow | Accent

  function ToneClass(t: Tone): string
  {
    match t
    case Red => "bg-red-500/10 text-red-500 border-red-500/50"
    case Orange => "bg-orange-500/10 text-orange-500 border-orange-500/50"
    case Yellow => "bg-yellow-500/10 text-yellow-500 border-yellow-500/50"
    case Accent => "bg-accent/10 text-accent border-accent/50"
  }

  /** How pressing a style is, in the order the checks run. */
  function Urgency(t: Tone): nat
  {
    match t
    case Accent => 0
    case Yellow => 1
    case Orange => 2
    case Red => 3
  }

  /** A null mileage reads as 0 in a comparison or a division. */
  function Km(x: Option<real>): real
  {
    if x.Some? then x.value else 0.0
  }

  /** `v.next_service_km` is truthy: set and not 0. */
  predicate ServiceDue(v: Vehicle)
  {
    v.nextServiceKm.Some? && v.nextServiceKm.value != 0.0
  }

  /**
   * `getStatusColor(v)`: MAINTENANCE is red whatever the mileage; else, with
   * a next service set, reaching it is orange and coming within 1000 km of
   * it is yellow; anything else is the accent style.
   */
  function StatusTone(v: Vehicle): (t: Tone)
    ensures t == Red <==> v.status == "MAINTENANCE"
    ensures t == Orange <==> v.status != "MAINTENANCE" && ServiceDue(v) && Km(v.currentKm) >= v.nextServiceKm.value
    ensures t == Yellow <==> (v.status != "MAINTENANCE" && ServiceDue(v)
      && v.nextServiceKm.value - 1000.0 <= Km(v.currentKm) < v.nextServiceKm.value)
    ensures t == Accent <==> (v.status != "MAINTENANCE"
      && (!ServiceDue(v) || Km(v.currentKm) < v.nextServiceKm.value - 1000.0))
  {
    if v.status == "MAINTENANCE" then Red
    else if ServiceDue(v) && Km(v.currentKm) >= v.nextServiceKm.value then Orange
    else if ServiceDue(v) && Km(v.currentKm) >= v.nextServiceKm.value - 1000.0 then Yellow
    else Accent
  }

  /** Driving more never makes a card's colour less pressing. */
  lemma MoreKmNoCalmer(v: Vehicle, km: real)
    requires km >= Km(v.currentKm)
    ensures Urgency(StatusTone(v)) <= Urgency(StatusTone(v.(currentKm := Some(km))))
  {
  }

  /** `getTypeIcon(type)`. */
  function TypeIcon(kind: string): (icon: string)
    ensures icon == "commute" <==> kind !in {"TRUCK", "UTE", "VAN", "CAR"}
  {
    if kind == "TRUCK" then "local_shipping"
    else if kind == "UTE" then "airport_shuttle"
    else if kind == "VAN" then "directions_bus"
    else if kind == "CAR" then "directions_car"
    else "commute"
  }

  /** The four known types get four different icons. */
  lemma IconsTellTypesApart(a: string, b: string)
    requires a in {"TRUCK", "UTE", "VAN", "CAR"} && b in {"TRUCK", "UTE", "VAN", "CAR"}
    ensures TypeIcon(a) == TypeIcon(b) <==> a == b
  {
  }

  /** `veh.next_service_km ? Math.min(100, (veh.current_km / veh.next_service_km) * 100) : 0`. */
  function PercentService(v: Vehicle): (p: real)
    ensures p <= 100.0
    ensures !ServiceDue(v) ==> p == 0.0
    ensures ServiceDue(v) && v.nextServiceKm.value > 0.0 && Km(v.currentKm) >= 0.0 ==> 0.0 <= p
    ensures ServiceDue(v) && v.nextServiceKm.value > 0.0 ==> (p == 100.0 <==> Km(v.currentKm) >= v.nextServiceKm.value)
  {
    if ServiceDue(v) then
      var n := v.nextServiceKm.value;
      var q := Km(v.currentKm) / n * 100.0;
      RatioBelow(Km(v.currentKm), n);
      if q < 100.0 then q else 100.0
    else 0.0
  }

  /** Against a positive mark, the share reaches 100 exactly at the mark, and is not negative from 0 km on. */
  lemma RatioBelow(c: real, n: real)
    ensures n > 0.0 ==> (c / n * 100.0 >= 100.0 <==> c >= n)
    ensures n > 0.0 && c >= 0.0 ==> c / n * 100.0 >= 0.0
  {
    if n > 0.0 {
      var r := c / n;
      assert r * n == c;
      if c >= n {
        assert r >= 1.0;
      } else {
        assert r < 1.0;
      }
    }
  }

  /** The bar colour under the card. */
  datatype Bar = BarRed | BarOrange | BarGreen

  /** `percentService > 90 ? 'bg-red-500' : percentService > 75 ? 'bg-orange-500' : 'bg-success'`. */
  function BarTone(p: real): (b: Bar)
    ensures b == BarRed <==> p > 90.0
    ensures b == BarGreen <==> p <= 75.0
  {
    if p > 90.0 then BarRed else if p > 75.0 then BarOrange else BarGreen
  }

  /**
   * A vehicle that is not under maintenance and has a positive next-service
   * mark shows the orange card exactly when its bar is full, and then the
   * bar is red.
   */
  lemma OrangeMeansFullBar(v: Vehicle)
    requires v.status != "MAINTENANCE" && ServiceDue(v) && v.nextServiceKm.value > 0.0
    ensures StatusTone(v) == Orange <==> PercentService(v) == 100.0
    ensures StatusTone(v) == Orange ==> BarTone(PercentService(v)) == BarRed
  {
  }

  /**
   * The record `register_vehicle_service` writes (next service 10000 km on,
   * status OPERATIONAL) shows the calm accent card and a bar that is not full.
   */
  lemma ServiceClearsWarning(v: Vehicle, now: DateTime)
    requires v.currentKm.Some? && v.currentKm.value >= 0.0
    ensures var serviced := v.(lastServiceDate := Some(now), nextServiceKm := Some(v.currentKm.value + 10000.0), status := "OPERATIONAL");
      StatusTone(serviced) == Accent && 0.0 <= PercentService(serviced) < 100.0
  {
    var serviced := v.(lastServiceDate := Some(now), nextServiceKm := Some(v.currentKm.value + 10000.0), status := "OPERATIONAL");
    assert serviced.status == "OPERATIONAL";
    assert "OPERATIONAL"[0] != "MAINTENANCE"[0];
  }

  // ------------------------------------------------------------------ form

  /**
   * `formData`: the fields the add/edit form posts. `status` is None when the
   * body has no such key; a missing and a null `last_service_date` are both
   * None. The vehicle's `id`, which an edit copies too, is ignored by the
   * server's schema and is left out.
   */
  datatype VehicleForm = VehicleForm(
    name: string, plate: string, kind: string, status: Option<string>,
    lastServiceDate: Option<DateTime>, currentKm: Option<real>, nextServiceKm: Option<real>)

  /** `{ name: '', plate: '', type: 'TRUCK', current_km: 0, next_service_km: 10000 }`. */
  const BlankForm := VehicleForm("", "", "TRUCK", None, None, Some(0.0), Some(10000.0))

  /** `{ ...veh }`: every field of the vehicle. */
  function FormOf(v: Vehicle): VehicleForm
  {
    VehicleForm(v.name, v.plate, v.kind, Some(v.status), v.lastServiceDate, v.currentKm, v.nextServiceKm)
  }

  /** The vehicle the server writes for a posted form: `VehicleCreate` fills a missing status with "OPERATIONAL". */
  function Received(f: VehicleForm): (v: Vehicle)
    ensures f.status.None? ==> v.status == "OPERATIONAL"
    ensures f.status.Some? ==> v.status == f.status.value
  {
    Vehicle(f.name, f.plate, f.kind, if f.status.Some? then f.status.value else "OPERATIONAL",
            f.lastServiceDate, f.nextServiceKm, f.currentKm)
  }

  /** Saving an edit without touching the form writes the vehicle back exactly as it was. */
  lemma EditSavesVehicle(v: Vehicle)
    ensures Received(FormOf(v)) == v
  {
  }

  /** A vehicle added through the blank form is operational, never serviced, at 0 km with its first service at 10000 km. */
  lemma NewVehicleOperational()
    ensures Received(BlankForm) == Vehicle("", "", "TRUCK", "OPERATIONAL", None, Some(10000.0), Some(0.0))
  {
  }

  /** The request `handleSubmit` sends: a PUT of the edited vehicle, or a POST of a new one. */
  datatype Submission = Create(form: VehicleForm) | Update(id: int, form: VehicleForm)

  /** The board's form state. */
  class Board {
    var vehicles: seq<Vehicle>
    var form: VehicleForm
    var editingId: Option<int>
    var showForm: bool

    constructor ()
      ensures vehicles == [] && form == BlankForm && editingId == None && !showForm
    {
      vehicles := [];
      form := BlankForm;
      editingId := None;
      showForm := false;
    }

    /** The "add vehicle" button: a blank form for a new vehicle. */
    method NewVehicle()
      modifies this`form, this`editingId, this`showForm
      ensures form == BlankForm && editingId == None && showForm
    {
      editingId := None;
      form := BlankForm;
      showForm := true;
    }

    /** The "edit" button: the form holds a copy of the vehicle, status and last service date included. */
    method Edit(id: int, v: Vehicle)
      modifies this`form, this`editingId, this`showForm
      ensures form == FormOf(v) && Received(form) == v
      ensures editingId == Some(id) && showForm
    {
      editingId := Some(id);
      form := FormOf(v);
      showForm := true;
      EditSavesVehicle(v);
    }

    /** `handleSubmit` up to the request. */
    method Submit() returns (s: Submission)
      ensures editingId.Some? ==> s == Update(editingId.value, form)
      ensures editingId.None? ==> s == Create(form)
    {
      if editingId.Some? {
        s := Update(editingId.value, form);
      } else {
        s := Create(form);
      }
    }

    /** The answer: success closes and resets the form; a failure leaves everything as it was. */
    method SubmitAnswered(ok: bool)
      modifies this`form, this`editingId, this`showForm
      ensures ok ==> form == BlankForm && editingId == None && !showForm
      ensures !ok ==> form == old(form) && editingId == old(editingId) && showForm == old(showForm)
    {
      if ok {
        showForm := false;
        form := BlankForm;
        editingId := None;
      }
    }
  }
}

// The NovaManager personnel sheet: per-employee drafts of the day's
// production, the pay preview (gross, pending advances, net), the payment
// and advance guards, and the stock offered for withdrawal.
module Personnel {
  import opened Prelude
  import opened JsText
  import opened JsNumbers
  import opened JsObjects
  import opened Dialog
  import NovaTables

  /** `{ meters, date }` of one employee's row, both as the inputs hold them. */
  datatype Draft = Draft(meters: string, date: string)

  datatype Field = MetersField | DateField

  /** An advance as `emp.advances` lists it. */
  datatype AdvanceRow = AdvanceRow(amount: real, isSettled: bool)

  /** A row of `/stock`. */
  datatype StockRow = StockRow(id: int, name: string, quantity: real)

  /** Body of `POST /employees/{id}/records`; `date` is the draft's date text, or null when it is empty. */
  datatype PayBody = PayBody(meters: JsNumber, date: Option<string>)

  /** Body of `POST /employees/{id}/advances`. */
  datatype AdvanceBody = AdvanceBody(amount: real, description: string)

  // ----------------------------------------------------------------- drafts

  /** `prev[empId] || { meters: '0', date: today }`: the draft an edit starts from. */
  function Base(drafts: Dict<Draft>, id: int, today: string): Draft
  {
    match Get(drafts, id)
    case Some(d) => d
    case None => Draft("0", today)
  }

  /** `drafts[emp.id] || { meters: '', date: today }`: the draft a row shows. */
  function Shown(drafts: Dict<Draft>, id: int, today: string): Draft
  {
    match Get(drafts, id)
    case Some(d) => d
    case None => Draft("", today)
  }

  function SetField(d: Draft, f: Field, v: string): Draft
  {
    match f
    case MetersField => d.(meters := v)
    case DateField => d.(date := v)
  }

  /**
   * `handleDraftChange(empId, field, value)`: the edited field takes the
   * value, the other field of that employee's draft keeps its text (or the
   * seed `'0'` / today when there was no draft), and no other employee's
   * draft changes.
   */
  function DraftChange(drafts: Dict<Draft>, id: int, f: Field, v: string, today: string): (r: Dict<Draft>)
    requires Ordered(drafts)
    ensures Ordered(r)
    ensures Get(r, id).Some?
    ensures f == MetersField ==> (Get(r, id).value.meters == v
      && Get(r, id).value.date == (if Get(drafts, id).Some? then Get(drafts, id).value.date else today))
    ensures f == DateField ==> (Get(r, id).value.date == v
      && Get(r, id).value.meters == (if Get(drafts, id).Some? then Get(drafts, id).value.meters else "0"))
    ensures forall j :: j != id ==> Get(r, j) == Get(drafts, j)
  {
    Put(drafts, id, SetField(Base(drafts, id, today), f, v))
  }

  /** Editing the meters and the date of a row gives the same drafts in either order. */
  lemma DraftEditsCommute(drafts: Dict<Draft>, id: int, m: string, x: string, today: string)
    requires Ordered(drafts)
    ensures DraftChange(DraftChange(drafts, id, MetersField, m, today), id, DateField, x, today)
         == DraftChange(DraftChange(drafts, id, DateField, x, today), id, MetersField, m, today)
  {
    var a := DraftChange(DraftChange(drafts, id, MetersField, m, today), id, DateField, x, today);
    var b := DraftChange(DraftChange(drafts, id, DateField, x, today), id, MetersField, m, today);
    assert Get(a, id) == Some(Draft(m, x)) == Get(b, id);
    forall j
      ensures Get(a, j) == Get(b, j)
    {
    }
    Extensional(a, b);
  }

  // ------------------------------------------------------------------- pay

  /** `!draft || !draft.meters || draft.meters <= 0`; the comparison converts the text with `Number`. */
  predicate PayRefused(draft: Option<Draft>)
  {
    draft.None? || draft.value.meters == "" || AtMost(ToNumber(draft.value.meters), Num(0.0))
  }

  /** The record sent for a draft that passed the guard. */
  function PayBodyOf(d: Draft): PayBody
  {
    PayBody(ParseFloat(d.meters), if d.date == "" then None else Some(d.date))
  }

  /**
   * A draft whose meters are plain digits passes the guard exactly when
   * they are not zero, and then it is sent as that positive number.
   */
  lemma PayGuardOnDigits(d: Draft)
    requires d.meters != "" && AllDigits(d.meters)
    ensures !PayRefused(Some(d)) <==> DigitsValue(d.meters) > 0
    ensures !PayRefused(Some(d)) ==> PayBodyOf(d).meters == Num(DigitsValue(d.meters) as real)
  {
    ParseDigits(d.meters);
  }

  /**
   * A row with no draft that only had its date edited carries the seeded
   * meters `'0'`, so paying it is refused.
   */
  lemma SeedAloneRefused(drafts: Dict<Draft>, id: int, x: string, today: string)
    requires Ordered(drafts) && Get(drafts, id).None?
    ensures PayRefused(Get(DraftChange(drafts, id, DateField, x, today), id))
  {
    ParseDigits("0");
  }

  // --------------------------------------------------------------- preview

  /** `.filter(a => !a.is_settled)` read as the amounts summed. */
  function Unsettled(advs: seq<AdvanceRow>): (r: seq<real>)
    ensures |r| <= |advs|
    decreases |advs|
  {
    if advs == [] then []
    else
      var last := advs[|advs| - 1];
      Unsettled(advs[..|advs| - 1]) + (if last.isSettled then [] else [last.amount])
  }

  /** `emp.advances?.filter(a => !a.is_settled).reduce((sum, a) => sum + a.amount, 0) || 0`. */
  function PendingAdvances(advs: Option<seq<AdvanceRow>>): real
  {
    if advs.None? then 0.0 else Sum(Unsettled(advs.value))
  }

  /** What a row shows. */
  datatype Preview = Preview(pending: real, gross: real, net: real)

  /**
   * A row's pay preview at meter price `price`: the gross is the parsed
   * meters (`parseFloat(meters) || 0`) times the price, and the net is
   * `Math.max(0, gross - pending)`, the same figure the payroll endpoint pays out.
   */
  function PreviewAt(meters: JsNumber, advs: Option<seq<AdvanceRow>>, price: real): (p: Preview)
    ensures p.net >= 0.0 && p.net >= p.gross - p.pending
    ensures p.net == 0.0 || p.net == p.gross - p.pending
    ensures p.pending == PendingAdvances(advs)
  {
    var pending := PendingAdvances(advs);
    var gross := OrZero(meters) * price;
    Preview(pending, gross, NovaTables.NetPay(gross, pending))
  }

  /** The desktop table's row: the configured meter price. */
  function DesktopPreview(d: Draft, advs: Option<seq<AdvanceRow>>, meterPrice: real): Preview
  {
    PreviewAt(ParseFloat(d.meters), advs, meterPrice)
  }

  /** The mobile card's row as written: a fixed price of 100000 per meter. */
  function MobilePreviewAsWritten(d: Draft, advs: Option<seq<AdvanceRow>>): Preview
  {
    PreviewAt(ParseFloat(d.meters), advs, 100000.0)
  }

  /** The mobile card's row with the configured meter price, as the desktop table shows it. */
  function MobilePreview(d: Draft, advs: Option<seq<AdvanceRow>>, meterPrice: real): (p: Preview)
    ensures p == DesktopPreview(d, advs, meterPrice)
  {
    PreviewAt(ParseFloat(d.meters), advs, meterPrice)
  }

  /** With a meter price of 5000, one meter shows 5000 on the desktop and 100000 on the phone. */
  lemma MobileDisagrees()
    ensures DesktopPreview(Draft("1", "2024-05-01"), None, 5000.0).gross == 5000.0
    ensures MobilePreviewAsWritten(Draft("1", "2024-05-01"), None).gross == 100000.0
  {
    OneMeter("1");
    OneMeterGross(5000.0);
    OneMeterGross(100000.0);
  }

  /** A one-character meter reading of `1` parses as one meter. */
  lemma OneMeter(m: string)
    requires |m| == 1 && m[0] == '1'
    ensures ParseFloat(m) == Num(1.0)
  {
    OneDigit(m);
    ParseFloatDigits(m);
  }

  lemma OneDigit(m: string)
    requires |m| == 1 && m[0] == '1'
    ensures AllDigits(m) && DigitsValue(m) == 1
  {
    assert m[..0] == "";
  }

  lemma OneMeterGross(price: real)
    ensures PreviewAt(Num(1.0), None, price).gross == price
  {
  }

  /** `emp.advances`: the employee's advances, in table order. */
  function EmployeeAdvances(adv: seq<NovaTables.Advance>, emp: int): (r: seq<AdvanceRow>)
    ensures |r| <= |adv|
    decreases |adv|
  {
    if adv == [] then []
    else
      var last := adv[|adv| - 1];
      EmployeeAdvances(adv[..|adv| - 1], emp)
        + (if last.employeeId == emp then [AdvanceRow(last.amount, last.isSettled)] else [])
  }

  lemma UnsettledSnoc(advs: seq<AdvanceRow>, x: AdvanceRow)
    ensures Unsettled(advs + [x]) == Unsettled(advs) + (if x.isSettled then [] else [x.amount])
  {
    assert (advs + [x])[..|advs|] == advs;
  }

  lemma UnsettledAppend(advs: seq<AdvanceRow>, xs: seq<AdvanceRow>)
    requires |xs| <= 1
    ensures Unsettled(advs + xs) == Unsettled(advs) + Unsettled(xs)
  {
    if xs == [] {
      assert advs + xs == advs;
    } else {
      UnsettledSnoc(advs, xs[0]);
      assert xs == [xs[0]];
      UnsettledSnoc([], xs[0]);
      assert [] + [xs[0]] == [xs[0]];
    }
  }

  /** Listing one more index adds that advance's amount at the end. */
  lemma AmountsSnoc(adv: seq<NovaTables.Advance>, p: seq<nat>, n: nat)
    requires NovaTables.InRange(adv, p) && n < |adv|
    ensures NovaTables.Amounts(adv, p + [n]) == NovaTables.Amounts(adv, p) + [adv[n].amount]
  {
  }

  /** Indices into a prefix of the table read the same amounts from the whole table. */
  lemma AmountsPrefix(adv: seq<NovaTables.Advance>, n: nat, p: seq<nat>)
    requires n <= |adv| && NovaTables.InRange(adv[..n], p)
    ensures NovaTables.Amounts(adv, p) == NovaTables.Amounts(adv[..n], p)
  {
  }

  /** The preview sums, in table order, the amounts the server lists as the employee's pending advances. */
  lemma {:induction false} UnsettledIsPending(adv: seq<NovaTables.Advance>, emp: int)
    ensures Unsettled(EmployeeAdvances(adv, emp)) == NovaTables.Amounts(adv, NovaTables.PendingOf(adv, emp))
    decreases |adv|
  {
    if adv != [] {
      var n := |adv| - 1;
      var front := adv[..n];
      var last := adv[n];
      UnsettledIsPending(front, emp);
      var p := NovaTables.PendingOf(front, emp);
      var tail := if last.employeeId == emp then [AdvanceRow(last.amount, last.isSettled)] else [];
      assert EmployeeAdvances(adv, emp) == EmployeeAdvances(front, emp) + tail;
      UnsettledAppend(EmployeeAdvances(front, emp), tail);
      AmountsPrefix(adv, n, p);
      if last.employeeId == emp && !last.isSettled {
        assert NovaTables.PendingOf(adv, emp) == p + [n];
        AmountsSnoc(adv, p, n);
      } else {
        assert NovaTables.PendingOf(adv, emp) == p;
        assert Unsettled(tail) == [];
      }
    }
  }

  /** Taking one index out of a list takes its advance's amount out of the sum. */
  lemma SumAmountsRemoveAt(adv: seq<NovaTables.Advance>, s: seq<nat>, k: nat)
    requires NovaTables.InRange(adv, s) && k < |s|
    ensures NovaTables.InRange(adv, s[..k] + s[k + 1..])
    ensures Sum(NovaTables.Amounts(adv, s)) == Sum(NovaTables.Amounts(adv, s[..k] + s[k + 1..])) + adv[s[k]].amount
  {
    var l, r := s[..k], s[k + 1..];
    var x := adv[s[k]].amount;
    assert s == l + [s[k]] + r;
    assert NovaTables.Amounts(adv, [s[k]]) == [x];
    AmountsConcat(adv, l + [s[k]], r);
    AmountsConcat(adv, l, [s[k]]);
    AmountsConcat(adv, l, r);
    var a, b := NovaTables.Amounts(adv, l), NovaTables.Amounts(adv, r);
    SumAppend(a + [x], b);
    SumAppend(a, [x]);
    SumAppend(a, b);
    assert [x][..0] == [];
  }

  /** The amounts of two joined index lists are the two lists' amounts joined. */
  lemma AmountsConcat(adv: seq<NovaTables.Advance>, p: seq<nat>, q: seq<nat>)
    requires NovaTables.InRange(adv, p) && NovaTables.InRange(adv, q)
    ensures NovaTables.InRange(adv, p + q)
    ensures NovaTables.Amounts(adv, p + q) == NovaTables.Amounts(adv, p) + NovaTables.Amounts(adv, q)
  {
  }

  lemma MultisetRemoveAt(s: seq<nat>, k: nat)
    requires k < |s|
    ensures multiset(s) == multiset(s[..k] + s[k + 1..]) + multiset{s[k]}
  {
    assert s == s[..k] + [s[k]] + s[k + 1..];
  }

  /** Sums of amounts do not depend on the order the advances are listed in. */
  lemma {:induction false} SumAmountsPermutation(adv: seq<NovaTables.Advance>, s1: seq<nat>, s2: seq<nat>)
    requires NovaTables.InRange(adv, s1) && NovaTables.InRange(adv, s2)
    requires multiset(s1) == multiset(s2)
    ensures Sum(NovaTables.Amounts(adv, s1)) == Sum(NovaTables.Amounts(adv, s2))
    decreases |s1|
  {
    if s1 == [] {
      assert |s2| == |multiset(s2)| == 0;
    } else {
      var n := |s1| - 1;
      var x := s1[n];
      MultisetRemoveAt(s1, n);
      assert s1[..n] + s1[n + 1..] == s1[..n];
      assert x in multiset(s2);
      var k :| 0 <= k < |s2| && s2[k] == x;
      var rest := s2[..k] + s2[k + 1..];
      MultisetRemoveAt(s2, k);
      forall y
        ensures multiset(rest)[y] == multiset(s1[..n])[y]
      {
        assert multiset(s2)[y] == multiset(s1)[y];
      }
      assert multiset(rest) == multiset(s1[..n]);
      SumAmountsRemoveAt(adv, s1, n);
      SumAmountsRemoveAt(adv, s2, k);
      SumAmountsPermutation(adv, s1[..n], rest);
    }
  }

  /**
   * The pending figure a row shows is the total the payroll endpoint
   * subtracts, although the endpoint walks the advances oldest first.
   */
  lemma PendingMatchesServer(adv: seq<NovaTables.Advance>, emp: int, gross: real)
    ensures PendingAdvances(Some(EmployeeAdvances(adv, emp))) == NovaTables.SettlePayroll(adv, emp, gross).pendingTotal
  {
    var p := NovaTables.PendingOf(adv, emp);
    UnsettledIsPending(adv, emp);
    NovaTables.SortByDatePermutes(adv, p);
    SumAmountsPermutation(adv, p, NovaTables.PendingByDate(adv, emp));
  }

  /**
   * When the row's meters parse to the number sent and the sheet holds the
   * price the endpoint reads, the net a row shows, on the desktop table or
   * on the corrected mobile card, is the cash the payment pays out.
   */
  lemma PreviewIsPaid(adv: seq<NovaTables.Advance>, emp: int, d: Draft, c: NovaTables.ConfigValue, m: real)
    requires ParseFloat(d.meters) == Num(m)
    ensures DesktopPreview(d, Some(EmployeeAdvances(adv, emp)), NovaTables.PayrollPrice(c)).net
         == NovaTables.SettlePayroll(adv, emp, NovaTables.GrossPay(m, c)).cash
    ensures MobilePreview(d, Some(EmployeeAdvances(adv, emp)), NovaTables.PayrollPrice(c)).net
         == NovaTables.SettlePayroll(adv, emp, NovaTables.GrossPay(m, c)).cash
  {
    var x := ParseFloat(d.meters);
    var advs := Some(EmployeeAdvances(adv, emp));
    var gross := NovaTables.GrossPay(m, c);
    var settled := NovaTables.SettlePayroll(adv, emp, gross);
    PendingMatchesServer(adv, emp, gross);
    PreviewNet(x, advs, c, m);
    assert DesktopPreview(d, advs, NovaTables.PayrollPrice(c)) == PreviewAt(x, advs, NovaTables.PayrollPrice(c));
    assert settled.cash == NovaTables.NetPay(gross, settled.pendingTotal);
  }

  lemma PreviewNet(meters: JsNumber, advs: Option<seq<AdvanceRow>>, c: NovaTables.ConfigValue, m: real)
    requires meters == Num(m)
    ensures PreviewAt(meters, advs, NovaTables.PayrollPrice(c)).net == NovaTables.NetPay(NovaTables.GrossPay(m, c), PendingAdvances(advs))
  {
    var price, pending := NovaTables.PayrollPrice(c), PendingAdvances(advs);
    assert OrZero(meters) == m;
    calc {
      PreviewAt(meters, advs, price).net;
      NovaTables.NetPay(OrZero(meters) * price, pending);
      NovaTables.NetPay(NovaTables.GrossPay(m, c), pending);
    }
  }

  // ------------------------------------------------------------- advances

  /** `isNaN(amount) || amount <= 0` for `amount = parseFloat(advanceAmount)`. */
  predicate AdvanceRefused(text: string)
  {
    var a := ParseFloat(text);
    a.NaN? || a.value <= 0.0
  }

  // ------------------------------------------------------------------ stock

  /** `data.filter(i => i.quantity > 0)`. */
  function Withdrawable(items: seq<StockRow>): (r: seq<StockRow>)
    ensures |r| <= |items|
    ensures forall x :: x in r <==> x in items && x.quantity > 0.0
    decreases |items|
  {
    if items == [] then []
    else
      var last := items[|items| - 1];
      assert items == items[..|items| - 1] + [last];
      Withdrawable(items[..|items| - 1]) + (if last.quantity > 0.0 then [last] else [])
  }

  // ------------------------------------------------------------------ state

  /** The component's state for drafts, the price, the stock list and the last alert. */
  class Sheet {
    var drafts: Dict<Draft>
    var meterPrice: real
    var stock: seq<StockRow>
    var alert: Option<Alert>

    predicate Valid()
      reads this
    {
      Ordered(drafts)
    }

    constructor ()
      ensures Valid()
      ensures drafts == [] && meterPrice == 0.0 && stock == [] && alert == None
    {
      drafts := [];
      meterPrice := 0.0;
      stock := [];
      alert := None;
    }

    /** `fetchPrice`: `parseFloat(data.value) || 0` when the request answers ok, nothing otherwise. */
    method LoadPrice(ok: bool, value: string)
      modifies this`meterPrice
      ensures ok ==> meterPrice == OrZero(ParseFloat(value))
      ensures !ok ==> meterPrice == old(meterPrice)
    {
      if ok {
        meterPrice := OrZero(ParseFloat(value));
      }
    }

    /** `fetchStock`. */
    method LoadStock(items: seq<StockRow>)
      modifies this`stock
      ensures stock == Withdrawable(items)
    {
      stock := Withdrawable(items);
    }

    /** `handleDraftChange`. */
    method ChangeDraft(id: int, f: Field, v: string, today: string)
      requires Valid()
      modifies this`drafts
      ensures Valid()
      ensures drafts == DraftChange(old(drafts), id, f, v, today)
    {
      drafts := DraftChange(drafts, id, f, v, today);
    }

    /** `handlePay` up to the request: a refused draft raises the alert and sends nothing. */
    method Pay(id: int) returns (body: Option<PayBody>)
      modifies this`alert
      ensures PayRefused(Get(drafts, id)) ==> body == None && alert == Some(Alert("Ingresa los metros realizados.", Failure))
      ensures !PayRefused(Get(drafts, id)) ==> body == Some(PayBodyOf(Get(drafts, id).value)) && alert == old(alert)
    {
      var draft := Get(drafts, id);
      if PayRefused(draft) {
        alert := Some(Alert("Ingresa los metros realizados.", Failure));
        return None;
      }
      body := Some(PayBodyOf(draft.value));
    }

    /** The payment went through: only that employee's draft is dropped. */
    method PayDone(id: int)
      requires Valid()
      modifies this`drafts, this`alert
      ensures Valid()
      ensures drafts == Delete(old(drafts), id)
      ensures Get(drafts, id) == None && forall j :: j != id ==> Get(drafts, j) == Get(old(drafts), j)
      ensures alert == Some(Alert("Pago registrado y reflejado en el Dashboard.", Success))
    {
      drafts := Delete(drafts, id);
      alert := Some(Alert("Pago registrado y reflejado en el Dashboard.", Success));
    }

    /** `handleRecordAdvance` up to the request: NaN or a non-positive amount sends nothing. */
    method RecordAdvance(text: string, description: string) returns (body: Option<AdvanceBody>)
      ensures body.None? <==> AdvanceRefused(text)
      ensures body.Some? ==> (body.value.amount > 0.0 && Num(body.value.amount) == ParseFloat(text)
        && body.value.description == description)
    {
      var amount := ParseFloat(text);
      if amount.NaN? || amount.value <= 0.0 {
        return None;
      }
      body := Some(AdvanceBody(amount.value, description));
    }
  }
}

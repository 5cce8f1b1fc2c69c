// The NovaManager stock page: which rows offer a sale, the add and sell
// forms' checks and request bodies, the sale preview (loss alert, profit
// per unit, total income) and the money format's fallback.
module StockPage {
  import opened Prelude
  import opened JsText
  import opened JsNumbers
  import opened Dialog
  import NovaTables
  import StatusBadge

  /** A row of `/stock`: the item's id and its record. */
  datatype Row = Row(id: int, item: NovaTables.StockItem)

  /** The `status` column as the server writes it. */
  function StatusText(s: NovaTables.StockStatus): (t: string)
    ensures t == "AVAILABLE" <==> s == NovaTables.Available
  {
    match s
    case Available => "AVAILABLE"
    case Depleted => "DEPLETED"
  }

  /** `item.status === 'AVAILABLE'`: the row shows the "USAR / VENDER" button. */
  predicate SaleOffered(r: Row)
  {
    StatusText(r.item.status) == "AVAILABLE"
  }

  /** The badge text of a row; both labels take the plain badge style. */
  function BadgeLabel(r: Row): (text: string)
    ensures text == "En Stock" <==> SaleOffered(r)
    ensures StatusBadge.Classify(Some(text)) == StatusBadge.Plain
  {
    if SaleOffered(r) then
      StatusBadge.InStockLabelIsPlain();
      "En Stock"
    else
      StatusBadge.SoldOutLabelIsPlain();
      "Agotado"
  }

  /**
   * A sale that leaves nothing takes the row's sale button away and labels
   * it sold out; a row without the button never gets it back by a sale.
   */
  lemma SaleEmptiesRow(r: Row, qty: real)
    ensures var after := Row(r.id, NovaTables.Withdraw(r.item, qty));
      (after.item.quantity <= 0.0 ==> !SaleOffered(after) && BadgeLabel(after) == "Agotado")
      && (!SaleOffered(r) ==> !SaleOffered(after))
  {
    var after := Row(r.id, NovaTables.Withdraw(r.item, qty));
    if !SaleOffered(r) {
      NovaTables.WithdrawNeverRevives(r.item, qty);
    }
    if after.item.quantity <= 0.0 {
      assert after.item.status == NovaTables.Depleted;
    }
  }

  // -------------------------------------------------------------- add form

  /** The add form's three inputs, as text. */
  datatype AddForm = AddForm(name: string, cost: string, quantity: string)

  /** The add form as it starts and as a successful add leaves it. */
  const BlankAdd := AddForm("", "", "1")

  /** Body of `POST /stock`. */
  datatype AddBody = AddBody(name: string, costAmount: real, initialQuantity: real)

  /** `handleAddSubmit` up to the request: refused with an empty name or a cost or quantity `parseFloat` cannot read. */
  function AddRequest(f: AddForm): (r: Option<AddBody>)
    ensures r.None? <==> (f.name == "" || ParseFloat(f.cost) == NaN || ParseFloat(f.quantity) == NaN)
    ensures r.Some? ==> (r.value.name == f.name && Num(r.value.costAmount) == ParseFloat(f.cost)
      && Num(r.value.initialQuantity) == ParseFloat(f.quantity))
  {
    var cost := ParseFloat(f.cost);
    var qty := ParseFloat(f.quantity);
    if f.name == "" || cost.NaN? || qty.NaN? then None
    else Some(AddBody(f.name, cost.value, qty.value))
  }

  /** A named batch with plain digit cost and quantity is sent with their decimal values. */
  lemma AddAcceptsDigits(name: string, cost: string, quantity: string)
    requires name != "" && cost != "" && AllDigits(cost) && quantity != "" && AllDigits(quantity)
    ensures AddRequest(AddForm(name, cost, quantity)) == Some(AddBody(name, DigitsValue(cost) as real, DigitsValue(quantity) as real))
  {
    ParseDigits(cost);
    ParseDigits(quantity);
  }

  /** The blank form is refused until a name is typed, and its cost field must be filled too. */
  lemma BlankAddRefused(name: string)
    ensures AddRequest(BlankAdd).None?
    ensures AddRequest(BlankAdd.(name := name)).None?
  {
    EmptyText();
  }

  /** The batch the server stores for an accepted form is on sale straight away. */
  lemma AddedItemOffered(f: AddForm, id: int, txId: int)
    requires AddRequest(f).Some?
    ensures var b := AddRequest(f).value;
      SaleOffered(Row(id, NovaTables.StockItem(b.name, b.costAmount, b.initialQuantity, b.initialQuantity,
        NovaTables.UnitCost(b.costAmount, b.initialQuantity), NovaTables.Available, txId)))
  {
  }

  // ------------------------------------------------------------- sell form

  /** The sell form's three inputs, as text. */
  datatype SellForm = SellForm(price: string, quantity: string, work: string)

  /** `handleSellClick`: empty price and description, quantity 1. */
  const BlankSell := SellForm("", "1", "")

  /** Body of `PUT /stock/{id}/sell`. */
  datatype SellBody = SellBody(salePriceUnit: real, quantity: real, workDescription: string)

  /** How `handleSellSubmit` ends: a missing field, not enough stock, or a request. */
  datatype SellCheck = Incomplete | Short | Send(body: SellBody)

  /** `handleSellSubmit` up to the request: both fields read with `parseFloat`. */
  function SellRequest(f: SellForm, r: Row): SellCheck
  {
    SellCheckOf(ParseFloat(f.price), ParseFloat(f.quantity), f.work, r)
  }

  /** The checks on the two readings and the description, in the order the handler makes them. */
  function SellCheckOf(price: JsNumber, qty: JsNumber, work: string, r: Row): (c: SellCheck)
    ensures c == Incomplete <==> (work == "" || price == NaN || qty == NaN)
    ensures c == Short <==> (work != "" && price.Num? && Less(Num(r.item.quantity), qty))
    ensures c.Send? ==> c.body == SellBody(price.value, qty.value, work)
  {
    if work == "" || price.NaN? || qty.NaN? then Incomplete
    else if qty.value > r.item.quantity then Short
    else Send(SellBody(price.value, qty.value, work))
  }

  /**
   * The page's stock check is the server's: a sale the page sends never
   * hits `sell_stock_item`'s 400 for too little stock, and one it stops for
   * that reason is exactly one the server would refuse.
   */
  lemma SellGuardMirrorsServer(price: JsNumber, qty: JsNumber, work: string, r: Row)
    ensures var c := SellCheckOf(price, qty, work, r);
      c.Send? ==> !(r.item.quantity < c.body.quantity)
    ensures (work != "" && price.Num? && qty.Num?) ==>
      (SellCheckOf(price, qty, work, r) == Short <==> r.item.quantity < qty.value)
  {
  }

  /** The form a sell click opens is refused until a description is typed and a price is given. */
  lemma BlankSellRefused(r: Row)
    ensures SellRequest(BlankSell, r) == Incomplete
  {
    EmptyText();
  }

  // ----------------------------------------------------------- sale preview

  /** `sellPriceUnit > 0 && sellPriceUnit < unit_cost`: the loss alert, with the text converted by `Number`. */
  predicate LossAlert(price: string, unitCost: real)
  {
    Less(Num(0.0), ToNumber(price)) && Less(ToNumber(price), Num(unitCost))
  }

  /** `sellPriceUnit >= unit_cost`: the estimated profit panel. */
  predicate ProfitPanel(price: string, unitCost: real)
  {
    AtMost(Num(unitCost), ToNumber(price))
  }

  /** `sellPriceUnit - unit_cost`: the profit per unit the panel shows. */
  function ProfitPerUnit(price: string, unitCost: real): (m: JsNumber)
    ensures ProfitPanel(price, unitCost) ==> m.Num? && m.value >= 0.0
    ensures LossAlert(price, unitCost) ==> m.Num? && m.value < 0.0
    ensures ToNumber(price) == NaN <==> m == NaN
  {
    match ToNumber(price)
    case NaN => NaN
    case Num(p) => Num(p - unitCost)
  }

  /**
   * The two never show together; a readable positive price shows exactly
   * one of them, and a price that `Number` cannot read shows neither.
   */
  lemma PreviewPanels(price: string, unitCost: real)
    ensures !(LossAlert(price, unitCost) && ProfitPanel(price, unitCost))
    ensures Less(Num(0.0), ToNumber(price)) ==> (LossAlert(price, unitCost) || ProfitPanel(price, unitCost))
    ensures ToNumber(price) == NaN ==> !LossAlert(price, unitCost) && !ProfitPanel(price, unitCost)
  {
  }

  /** `(parseFloat(sellQuantity) || 0) * (parseFloat(sellPriceUnit) || 0)`: the income shown. */
  function Income(f: SellForm): real
  {
    IncomeOf(ParseFloat(f.quantity), ParseFloat(f.price))
  }

  /** The product of the two readings, each counted as 0 when it is NaN. */
  function IncomeOf(q: JsNumber, p: JsNumber): (v: real)
    ensures q == NaN || p == NaN ==> v == 0.0
    ensures q.Num? && p.Num? ==> v == q.value * p.value
  {
    OrZeroOfNumber(q);
    OrZeroOfNumber(p);
    OrZero(q) * OrZero(p)
  }

  /** `x || 0` keeps every number, 0 included, and turns NaN into 0. */
  lemma OrZeroOfNumber(x: JsNumber)
    ensures x.Num? ==> OrZero(x) == x.value
    ensures x == NaN ==> OrZero(x) == 0.0
  {
  }

  /** The income shown for a sale the page sends is the total `sell_stock_item` books as income. */
  lemma IncomeIsBookedTotal(price: JsNumber, qty: JsNumber, work: string, r: Row, b: SellBody)
    requires SellCheckOf(price, qty, work, r) == Send(b)
    ensures IncomeOf(qty, price) == b.quantity * b.salePriceUnit
  {
    IncomeOfNumbers(b.quantity, b.salePriceUnit);
  }

  lemma IncomeOfNumbers(a: real, b: real)
    ensures IncomeOf(Num(a), Num(b)) == a * b
  {
  }

  /** The body a sell check lets through. */
  function SentBody(c: SellCheck): (b: Option<SellBody>)
    ensures b.Some? <==> c.Send?
    ensures c.Send? ==> b == Some(c.body)
  {
    if c.Send? then Some(c.body) else None
  }

  /** The dialog after a sell check: each refusal has its message, a request leaves the dialog as it was. */
  function SellAlert(c: SellCheck, prior: Option<Alert>): (a: Option<Alert>)
    ensures c.Send? ==> a == prior
    ensures c == Incomplete ==> a == Some(Alert("Completa todos los campos", Failure))
    ensures c == Short ==> a == Some(Alert("No hay suficiente stock.", Failure))
  {
    match c
    case Incomplete => Some(Alert("Completa todos los campos", Failure))
    case Short => Some(Alert("No hay suficiente stock.", Failure))
    case Send(_) => prior
  }

  // ------------------------------------------------------------ money text

  /** What `formatMoney` prints: the fixed fallback, or the amount in the es-AR peso format. */
  datatype Money = Fallback | Currency(amount: real)

  /** The fallback text. */
  const FallbackText := "$ 0,00"

  /** `formatMoney(val)`: `undefined`, `null` (both `None`) and NaN print the fallback. */
  function FormatMoney(v: Option<JsNumber>): (m: Money)
    ensures m == Fallback <==> (v.None? || v == Some(NaN))
    ensures m.Currency? ==> v == Some(Num(m.amount))
  {
    match v
    case None => Fallback
    case Some(NaN) => Fallback
    case Some(Num(x)) => Currency(x)
  }

  /** The profit panel never prints the fallback: its amount is a number. */
  lemma ProfitPrintsAmount(price: string, unitCost: real)
    requires ProfitPanel(price, unitCost)
    ensures FormatMoney(Some(ProfitPerUnit(price, unitCost))).Currency?
    ensures FormatMoney(Some(ProfitPerUnit(price, unitCost))).amount >= 0.0
  {
  }

  // ------------------------------------------------------------------ page

  /** The page's state: the list, both forms, the chosen row and the dialogs. */
  class Inventory {
    var rows: seq<Row>
    var addForm: AddForm
    var sellForm: SellForm
    var selected: Option<Row>
    var addOpen: bool
    var sellOpen: bool
    var alert: Option<Alert>

    constructor ()
      ensures rows == [] && addForm == BlankAdd && sellForm == BlankSell
      ensures selected == None && !addOpen && !sellOpen && alert == None
    {
      rows := [];
      addForm := BlankAdd;
      sellForm := BlankSell;
      selected := None;
      addOpen := false;
      sellOpen := false;
      alert := None;
    }

    /** `fetchStock`: the list, or an empty one when the answer is not a list or the request fails (`None`). */
    method Load(data: Option<seq<Row>>)
      modifies this`rows
      ensures rows == (if data.Some? then data.value else [])
    {
      rows := if data.Some? then data.value else [];
    }

    /** `handleSellClick`, reachable only through a row's sale button. */
    method SellClick(r: Row)
      requires r in rows && SaleOffered(r)
      modifies this`selected, this`sellForm, this`sellOpen
      ensures selected == Some(r) && sellForm == BlankSell && sellOpen
    {
      selected := Some(r);
      sellForm := BlankSell;
      sellOpen := true;
    }

    /** `handleAddSubmit` up to the request: the body to send, or the refusal. */
    method SubmitAdd() returns (body: Option<AddBody>)
      modifies this`alert
      ensures body == AddRequest(old(addForm))
      ensures body.None? ==> alert == Some(Alert("Por favor completa todos los campos correctamente.", Failure))
      ensures body.Some? ==> alert == old(alert)
    {
      body := AddRequest(addForm);
      if body.None? {
        alert := Some(Alert("Por favor completa todos los campos correctamente.", Failure));
      }
    }

    /** The answer to `POST /stock`: success closes and clears the form; a failure reports `"Error: "` and the message. */
    method AddAnswered(ok: bool, message: string)
      modifies this`addOpen, this`addForm, this`alert
      ensures ok ==> !addOpen && addForm == BlankAdd && alert == Some(Alert("Material agregado correctamente", Success))
      ensures !ok ==> addOpen == old(addOpen) && addForm == old(addForm) && alert == Some(Alert("Error: " + message, Failure))
    {
      if ok {
        addOpen := false;
        addForm := BlankAdd;
        alert := Some(Alert("Material agregado correctamente", Success));
      } else {
        alert := Some(Alert("Error: " + message, Failure));
      }
    }

    /** `handleSellSubmit` up to the request, for the row the dialog was opened on. */
    method SubmitSell() returns (body: Option<SellBody>)
      requires selected.Some?
      modifies this`alert
      ensures var c := SellRequest(old(sellForm), old(selected).value);
        body == SentBody(c) && alert == SellAlert(c, old(alert))
    {
      var c := SellRequest(sellForm, selected.value);
      body := SentBody(c);
      alert := SellAlert(c, alert);
    }

    /** The answer to the sale: success closes the dialog; a failure shows the error's message. */
    method SellAnswered(ok: bool, message: string)
      modifies this`sellOpen, this`alert
      ensures ok ==> !sellOpen && alert == Some(Alert("Venta registrada con éxito", Success))
      ensures !ok ==> sellOpen == old(sellOpen) && alert == Some(Alert(message, Failure))
    {
      if ok {
        sellOpen := false;
        alert := Some(Alert("Venta registrada con éxito", Success));
      } else {
        alert := Some(Alert(message, Failure));
      }
    }
  }
}

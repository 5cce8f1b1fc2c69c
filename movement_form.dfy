// The NovaManager income/expense form: the amount field that reads only
// the digits typed and shows them as cents, the category chips offered for
// the form's type, and the submit check and request body.
module MovementForm {
  import opened Prelude
  import opened JsText
  import opened Dialog

  /** A category as `/categories` lists it; `kind` is its `type`, `"INCOME"` or `"EXPENSE"`. */
  datatype Category = Category(id: int, name: string, kind: string)

  /**
   * The list the form falls back on while it has no categories: the twelve
   * the back end seeds on an empty database, in the same order, numbered
   * from 1.
   */
  const FallbackCategories: seq<Category> := [
    Category(1, "Honorarios / Servicios", "INCOME"),
    Category(2, "Venta de Productos", "INCOME"),
    Category(3, "Otros Ingresos", "INCOME"),
    Category(4, "Monotributo / Impuestos", "EXPENSE"),
    Category(5, "Servicios (Luz, Internet)", "EXPENSE"),
    Category(6, "Insumos / Materiales", "EXPENSE"),
    Category(7, "Viáticos / Transporte", "EXPENSE"),
    Category(8, "Publicidad / Marketing", "EXPENSE"),
    Category(9, "Alquiler", "EXPENSE"),
    Category(10, "Equipamiento", "EXPENSE"),
    Category(11, "Suscripciones Software", "EXPENSE"),
    Category(12, "Otros Gastos", "EXPENSE")]

  // ----------------------------------------------------------- amount field

  /** What an edit of the amount field amounts to: no digit at all, or a number of cents. */
  datatype AmountEdit = Cleared | Typed(cents: nat)

  /** `handleAmountChange`: the digits of the text, read as cents; none at all clears the field. */
  function ReadAmount(text: string): (e: AmountEdit)
    ensures e == Cleared <==> DigitsOf(text) == ""
    ensures e.Typed? ==> e.cents == DigitsValue(DigitsOf(text))
  {
    var raw := DigitsOf(text);
    if raw == "" then Cleared else Typed(DigitsValue(raw))
  }

  /** A character that is not a digit changes nothing, wherever it is typed or pasted. */
  lemma NonDigitIgnored(a: string, b: string, c: char)
    requires !IsDigit(c)
    ensures ReadAmount(a + [c] + b) == ReadAmount(a + b)
  {
    DigitsOfConcat(a + [c], b);
    DigitsOfConcat(a, [c]);
    DigitsOfConcat(a, b);
    assert DigitsOf([c]) == "" by {
      assert [c][0] == c && [c][1..] == [];
    }
    assert DigitsOf(a + [c] + b) == DigitsOf(a + b);
  }

  /** The two cents digits. */
  function CentsText(c: nat): (r: string)
    requires c < 100
    ensures |r| == 2 && AllDigits(r)
  {
    [DigitChar(c / 10), DigitChar(c % 10)]
  }

  /**
   * `(n / 100).toLocaleString('es-AR', { minimumFractionDigits: 2,
   * maximumFractionDigits: 2 })`: the whole part, a decimal comma and two
   * cents digits (thousands separators are not modelled).
   */
  function Display(n: nat): (r: string)
    ensures r != ""
  {
    NatToString(n / 100) + "," + CentsText(n % 100)
  }

  lemma DigitsValueSnoc(s: string, c: char)
    requires AllDigits(s) && IsDigit(c)
    ensures AllDigits(s + [c]) && DigitsValue(s + [c]) == DigitsValue(s) * 10 + DigitValue(c)
  {
    assert (s + [c])[..|s|] == s;
  }

  /** The digits of the shown amount: the whole part's, then the two cents digits. */
  lemma DisplayDigits(n: nat)
    ensures DigitsOf(Display(n)) == NatToString(n / 100) + CentsText(n % 100)
  {
    var w, c := NatToString(n / 100), CentsText(n % 100);
    DigitsOfConcat(w + ",", c);
    DigitsOfConcat(w, ",");
    DigitsOfDigits(w);
    DigitsOfDigits(c);
    assert DigitsOf(",") == "" by {
      assert ","[1..] == [];
    }
  }

  /** The shown amount reads back as the cents it shows. */
  lemma DisplayReadsBack(n: nat)
    ensures ReadAmount(Display(n)) == Typed(n)
  {
    DisplayDigits(n);
    var w, c := NatToString(n / 100), CentsText(n % 100);
    NatToStringValue(n / 100);
    DigitsValueSnoc(w, c[0]);
    DigitsValueSnoc(w + [c[0]], c[1]);
    assert w + c == w + [c[0]] + [c[1]];
    assert DigitsValue(w + c) == (n / 100) * 100 + (n % 100) / 10 * 10 + (n % 100) % 10;
  }

  /**
   * Typing a digit at the end of the shown amount shifts it into the cents:
   * the amount becomes ten times as many cents plus the digit.
   */
  lemma TypingShiftsCents(n: nat, d: char)
    requires IsDigit(d)
    ensures ReadAmount(Display(n) + [d]) == Typed(n * 10 + DigitValue(d))
  {
    DisplayReadsBack(n);
    DisplayDigits(n);
    var raw := DigitsOf(Display(n));
    DigitsOfConcat(Display(n), [d]);
    DigitsOfDigits([d]);
    DigitsValueSnoc(raw, d);
  }

  /** Deleting the last character of the shown amount drops its last cents digit. */
  lemma BackspaceDropsDigit(n: nat)
    ensures ReadAmount(Display(n)[..|Display(n)| - 1]) == Typed(n / 10)
  {
    var w, c := NatToString(n / 100), CentsText(n % 100);
    var shorter := Display(n)[..|Display(n)| - 1];
    assert shorter == w + "," + [c[0]];
    DigitsOfConcat(w + ",", [c[0]]);
    DigitsOfConcat(w, ",");
    DigitsOfDigits(w);
    DigitsOfDigits([c[0]]);
    assert DigitsOf(",") == "" by {
      assert ","[1..] == [];
    }
    assert DigitsOf(shorter) == w + [c[0]];
    NatToStringValue(n / 100);
    DigitsValueSnoc(w, c[0]);
    assert DigitsValue(w + [c[0]]) == (n / 100) * 10 + (n % 100) / 10;
  }

  // ------------------------------------------------------------- categories

  /** `categories.filter(cat => cat.type === type)`: the chips offered. */
  function Chips(cats: seq<Category>, kind: string): (r: seq<Category>)
    ensures |r| <= |cats|
    ensures forall c :: c in r <==> c in cats && c.kind == kind
  {
    if cats == [] then []
    else (if cats[0].kind == kind then [cats[0]] else []) + Chips(cats[1..], kind)
  }

  lemma {:induction false} ChipsAppend(a: seq<Category>, b: seq<Category>, kind: string)
    ensures Chips(a + b, kind) == Chips(a, kind) + Chips(b, kind)
  {
    if a == [] {
      assert a + b == b;
    } else {
      assert (a + b)[0] == a[0];
      assert (a + b)[1..] == a[1..] + b;
      ChipsAppend(a[1..], b, kind);
    }
  }

  /** A list of one type keeps all of it under that type and none of it under another. */
  lemma {:induction false} ChipsOfOneKind(cats: seq<Category>, kind: string, other: string)
    requires forall i :: 0 <= i < |cats| ==> cats[i].kind == kind
    requires other != kind
    ensures Chips(cats, kind) == cats
    ensures Chips(cats, other) == []
  {
    if cats != [] {
      ChipsOfOneKind(cats[1..], kind, other);
    }
  }

  /**
   * With the fallback list, an income form offers the first three categories
   * and an expense form the other nine: each category is offered to exactly
   * one of the two forms, in the list's order.
   */
  lemma FallbackChips()
    ensures Chips(FallbackCategories, "INCOME") == FallbackCategories[..3]
    ensures Chips(FallbackCategories, "EXPENSE") == FallbackCategories[3..]
  {
    var f := FallbackCategories;
    FallbackKinds();
    ChipsOfBlocks(f[..3], f[3..], "INCOME", "EXPENSE");
    assert f[..3] + f[3..] == f;
  }

  /** A list made of a block of one type followed by a block of another splits back into the two blocks. */
  lemma ChipsOfBlocks(a: seq<Category>, b: seq<Category>, ka: string, kb: string)
    requires forall i :: 0 <= i < |a| ==> a[i].kind == ka
    requires forall i :: 0 <= i < |b| ==> b[i].kind == kb
    requires ka != kb
    ensures Chips(a + b, ka) == a && Chips(a + b, kb) == b
  {
    ChipsAppend(a, b, ka);
    ChipsAppend(a, b, kb);
    ChipsOfOneKind(a, ka, kb);
    ChipsOfOneKind(b, kb, ka);
  }

  lemma FallbackKinds()
    ensures forall i :: 0 <= i < 3 ==> FallbackCategories[..3][i].kind == "INCOME"
    ensures forall i :: 0 <= i < 9 ==> FallbackCategories[3..][i].kind == "EXPENSE"
    ensures "INCOME" != "EXPENSE"
  {
    assert |"INCOME"| != |"EXPENSE"|;
  }

  /** The categories the stock sale and purchase book under are offered to forms of the same type. */
  lemma StockCategoriesOffered()
    ensures Category(2, "Venta de Productos", "INCOME") in Chips(FallbackCategories, "INCOME")
    ensures Category(6, "Insumos / Materiales", "EXPENSE") in Chips(FallbackCategories, "EXPENSE")
  {
    assert FallbackCategories[1] == Category(2, "Venta de Productos", "INCOME");
    assert FallbackCategories[5] == Category(6, "Insumos / Materiales", "EXPENSE");
  }

  // ----------------------------------------------------------------- submit

  /** Body of `POST /transactions`. */
  datatype Payload = Payload(amount: real, description: string, kind: string, categoryId: int, isInvoiced: bool)

  /** How a submit ends: stopped by the browser's `required` check, refused for want of a category, or sent. */
  datatype SubmitOutcome = Blocked | NoCategory | Send(payload: Payload)

  /** `!categoryId`: nothing chosen yet, or the falsy id 0. */
  predicate NoChoice(categoryId: Option<int>)
  {
    categoryId.None? || categoryId.value == 0
  }

  /** The form's state. */
  class Form {
    const kind: string
    var categories: seq<Category>
    var display: string
    var amount: Option<real>
    ghost var cents: nat
    var description: string
    var categoryId: Option<int>
    var alert: Option<Alert>

    /** The amount is empty exactly when the field shows nothing, and otherwise is the cents shown. */
    ghost predicate Valid()
      reads this
    {
      (display == "" <==> amount.None?)
      && (amount.Some? ==> display == Display(cents) && amount.value == cents as real / 100.0)
    }

    /** Opening the form: nothing typed, no category chosen, and the fallback list while `/categories` has not answered. */
    constructor (kind: string)
      ensures Valid() && this.kind == kind
      ensures categories == FallbackCategories && display == "" && amount == None
      ensures description == "" && categoryId == None && alert == None
    {
      this.kind := kind;
      categories := FallbackCategories;
      display := "";
      amount := None;
      cents := 0;
      description := "";
      categoryId := None;
      alert := None;
    }

    /** The answer to `/categories`: the list received, or the fallback again when it is empty; a failure keeps the list. */
    method CategoriesAnswered(data: Option<seq<Category>>)
      modifies this`categories
      ensures data.Some? && data.value != [] ==> categories == data.value
      ensures data.Some? && data.value == [] ==> categories == FallbackCategories
      ensures data.None? ==> categories == old(categories)
    {
      if data.Some? {
        categories := data.value;
        if |categories| == 0 {
          categories := FallbackCategories;
        }
      }
    }

    /** `handleAmountChange`: the field shows the digits as cents, or clears with the amount. */
    method EditAmount(text: string)
      modifies this`display, this`amount, this`cents
      ensures Valid()
      ensures ReadAmount(text) == Cleared ==> display == "" && amount == None
      ensures ReadAmount(text).Typed? ==> (display == Display(ReadAmount(text).cents)
        && amount == Some(ReadAmount(text).cents as real / 100.0))
    {
      var raw := DigitsOf(text);
      if raw == "" {
        display := "";
        amount := None;
      } else {
        var n := DigitsValue(raw);
        display := Display(n);
        amount := Some(n as real / 100.0);
        cents := n;
      }
    }

    method EditDescription(text: string)
      modifies this`description
      ensures description == text
    {
      description := text;
    }

    /** A click on a chip: only the chips of the form's type are on screen. */
    method PickCategory(c: Category)
      requires c in Chips(categories, kind)
      modifies this`categoryId
      ensures categoryId == Some(c.id)
    {
      categoryId := Some(c.id);
    }

    /**
     * `handleSubmit` behind the browser's `required` check on the amount and
     * the description: without a category the toast asks for one; otherwise
     * the amount shown is sent, not invoiced, with the form's type.
     */
    method Submit() returns (r: SubmitOutcome)
      requires Valid()
      modifies this`alert
      ensures old(display) == "" || old(description) == "" ==> r == Blocked && alert == old(alert)
      ensures old(display) != "" && old(description) != "" && NoChoice(old(categoryId)) ==>
        r == NoCategory && alert == Some(Alert("Por favor selecciona una categoría", Failure))
      ensures old(display) != "" && old(description) != "" && !NoChoice(old(categoryId)) ==>
        r == Send(Payload(old(cents) as real / 100.0, old(description), kind, old(categoryId).value, false))
        && alert == old(alert)
    {
      if display == "" || description == "" {
        return Blocked;
      }
      if NoChoice(categoryId) {
        alert := Some(Alert("Por favor selecciona una categoría", Failure));
        return NoCategory;
      }
      r := Send(Payload(amount.value, description, kind, categoryId.value, false));
    }

    /** The reply, read as JSON: the form reports success; a request or parse failure reports the error. */
    method SubmitAnswered(parsed: bool, error: string)
      modifies this`alert
      ensures parsed ==> alert == Some(Alert("Movimiento registrado con éxito", Success))
      ensures !parsed ==> alert == Some(Alert("Error saving: " + error, Failure))
    {
      if parsed {
        alert := Some(Alert("Movimiento registrado con éxito", Success));
      } else {
        alert := Some(Alert("Error saving: " + error, Failure));
      }
    }
  }

  /** An amount the field holds is never negative, and re-reading what the field shows gives it back. */
  lemma ShownAmountStable(n: nat)
    ensures ReadAmount(Display(n)).Typed? && ReadAmount(Display(n)).cents as real / 100.0 == n as real / 100.0
    ensures n as real / 100.0 >= 0.0
  {
    DisplayReadsBack(n);
  }
}

// `PCBuilder` of the NexusHardware store: a ten-step wizard that picks at
// most one product per component category and sends the build to the cart.
module PcBuilder {
  import opened Prelude
  import opened NexusStore

  /** The category ids of the ten steps, in step order. */
  const Categories: seq<string> := ["CPU", "MOTHERBOARD", "RAM", "REFRIGERACION", "GPU",
                                    "ALMACENAMIENTO", "FUENTE", "GABINETE", "MONITOR", "PERIFERICOS"]

  /** The tag every item of a build carries to the cart. */
  const BuildTag := "ARMA_TU_PC"

  /** One entry of the `selection` object: a category key and its product. */
  datatype Entry = Entry(category: string, product: Product)

  /** The selection, in the insertion order `Object.values` reports. */
  type Selection = seq<Entry>

  function Keys(sel: Selection): set<string>
  {
    if sel == [] then {} else {sel[0].category} + Keys(sel[1..])
  }

  /** No category is a key twice: each category holds at most one product. */
  predicate Unique(sel: Selection)
  {
    sel == [] || (sel[0].category !in Keys(sel[1..]) && Unique(sel[1..]))
  }

  /** `selection[category]`. */
  function Lookup(sel: Selection, category: string): Option<Product>
  {
    if sel == [] then None
    else if sel[0].category == category then Some(sel[0].product)
    else Lookup(sel[1..], category)
  }

  /** `{ ...prev, [category]: product }`: an existing key keeps its place, a new one goes last. */
  function Put(sel: Selection, category: string, product: Product): Selection
  {
    if sel == [] then [Entry(category, product)]
    else if sel[0].category == category then [Entry(category, product)] + sel[1..]
    else [sel[0]] + Put(sel[1..], category, product)
  }

  /** `delete newSelection[category]`. */
  function Delete(sel: Selection, category: string): Selection
  {
    if sel == [] then []
    else if sel[0].category == category then Delete(sel[1..], category)
    else [sel[0]] + Delete(sel[1..], category)
  }

  /** `handleSelect(category, product)`: picking the product already chosen for the category removes it. */
  function Select(sel: Selection, category: string, product: Product): Selection
  {
    var current := Lookup(sel, category);
    if current.Some? && current.value.id == product.id then Delete(sel, category)
    else Put(sel, category, product)
  }

  lemma {:induction false} LookupKeys(sel: Selection, c: string)
    ensures Lookup(sel, c).Some? <==> c in Keys(sel)
    decreases |sel|
  {
    if sel != [] {
      LookupKeys(sel[1..], c);
    }
  }

  /** Putting sets the category's product and leaves every other category as it was. */
  lemma {:induction false} PutSpec(sel: Selection, category: string, product: Product)
    ensures Keys(Put(sel, category, product)) == Keys(sel) + {category}
    ensures Unique(sel) ==> Unique(Put(sel, category, product))
    ensures forall c :: Lookup(Put(sel, category, product), c) == if c == category then Some(product) else Lookup(sel, c)
    decreases |sel|
  {
    var r := Put(sel, category, product);
    if sel == [] {
    } else if sel[0].category == category {
      assert r[1..] == sel[1..];
    } else {
      PutSpec(sel[1..], category, product);
      assert r[1..] == Put(sel[1..], category, product);
    }
  }

  /** Deleting empties the category and leaves every other category as it was. */
  lemma {:induction false} DeleteSpec(sel: Selection, category: string)
    ensures Keys(Delete(sel, category)) == Keys(sel) - {category}
    ensures Unique(sel) ==> Unique(Delete(sel, category))
    ensures forall c :: Lookup(Delete(sel, category), c) == if c == category then None else Lookup(sel, c)
    decreases |sel|
  {
    var r := Delete(sel, category);
    if sel != [] {
      DeleteSpec(sel[1..], category);
      if sel[0].category != category {
        assert r[1..] == Delete(sel[1..], category);
      }
    }
  }

  /**
   * Selecting keeps one product per category and changes only the chosen
   * category: it now holds the product, or nothing when that very product
   * was already chosen.
   */
  lemma SelectSpec(sel: Selection, category: string, product: Product)
    requires Unique(sel)
    ensures Unique(Select(sel, category, product))
    ensures var before := Lookup(sel, category);
      var toggledOff := before.Some? && before.value.id == product.id;
      forall c :: Lookup(Select(sel, category, product), c) ==
        if c != category then Lookup(sel, c) else if toggledOff then None else Some(product)
  {
    PutSpec(sel, category, product);
    DeleteSpec(sel, category);
  }

  /** Putting a category the selection lacks appends it. */
  lemma {:induction false} PutNew(sel: Selection, category: string, product: Product)
    requires category !in Keys(sel)
    ensures Put(sel, category, product) == sel + [Entry(category, product)]
    decreases |sel|
  {
    if sel != [] {
      PutNew(sel[1..], category, product);
      assert sel == [sel[0]] + sel[1..];
    }
  }

  /** Deleting a category the selection lacks changes nothing. */
  lemma {:induction false} DeleteAbsent(sel: Selection, category: string)
    requires category !in Keys(sel)
    ensures Delete(sel, category) == sel
    decreases |sel|
  {
    if sel != [] {
      DeleteAbsent(sel[1..], category);
      assert sel == [sel[0]] + sel[1..];
    }
  }

  /** Deleting the last entry. */
  lemma {:induction false} DeleteLast(sel: Selection, category: string, product: Product)
    requires category !in Keys(sel)
    ensures Delete(sel + [Entry(category, product)], category) == sel
    decreases |sel|
  {
    if sel == [] {
      assert [Entry(category, product)][1..] == [];
    } else {
      DeleteLast(sel[1..], category, product);
      assert (sel + [Entry(category, product)])[1..] == sel[1..] + [Entry(category, product)];
      assert sel == [sel[0]] + sel[1..];
    }
  }

  /** Selecting a product twice for an empty category restores the selection, order included. */
  lemma SelectTwiceRestores(sel: Selection, category: string, product: Product)
    requires Lookup(sel, category).None?
    ensures Select(Select(sel, category, product), category, product) == sel
  {
    LookupKeys(sel, category);
    PutNew(sel, category, product);
    PutSpec(sel, category, product);
    DeleteLast(sel, category, product);
  }

  /** `totalPrice`: the sum of the selected products' prices, in selection order. */
  function Total(sel: Selection): real
  {
    if sel == [] then 0.0 else sel[0].product.price + Total(sel[1..])
  }

  function PriceOf(p: Option<Product>): real
  {
    if p.Some? then p.value.price else 0.0
  }

  /** Putting swaps the category's old price, if any, for the new one. */
  lemma {:induction false} TotalPut(sel: Selection, category: string, product: Product)
    requires Unique(sel)
    ensures Total(Put(sel, category, product)) == Total(sel) - PriceOf(Lookup(sel, category)) + product.price
    decreases |sel|
  {
    if sel != [] {
      if sel[0].category == category {
        assert Put(sel, category, product)[1..] == sel[1..];
      } else {
        TotalPut(sel[1..], category, product);
        assert Put(sel, category, product)[1..] == Put(sel[1..], category, product);
      }
    }
  }

  /** Deleting removes the category's price, if any. */
  lemma {:induction false} TotalDelete(sel: Selection, category: string)
    requires Unique(sel)
    ensures Total(Delete(sel, category)) == Total(sel) - PriceOf(Lookup(sel, category))
    decreases |sel|
  {
    if sel != [] {
      if sel[0].category == category {
        LookupKeys(sel[1..], category);
        DeleteAbsent(sel[1..], category);
      } else {
        TotalDelete(sel[1..], category);
        assert Delete(sel, category)[1..] == Delete(sel[1..], category);
      }
    }
  }

  /** The total after a selection step follows the chosen category's change alone. */
  lemma TotalSelect(sel: Selection, category: string, product: Product)
    requires Unique(sel)
    ensures var before := Lookup(sel, category);
      var toggledOff := before.Some? && before.value.id == product.id;
      Total(Select(sel, category, product)) ==
        Total(sel) - PriceOf(before) + (if toggledOff then 0.0 else product.price)
  {
    TotalPut(sel, category, product);
    TotalDelete(sel, category);
  }

  /** The compile button's `disabled={totalPrice === 0}`. */
  predicate CompileDisabled(sel: Selection)
  {
    Total(sel) == 0.0
  }

  /** With positive prices, compiling is disabled exactly when nothing is selected. */
  lemma {:induction false} CompileDisabledIffEmpty(sel: Selection)
    requires forall i :: 0 <= i < |sel| ==> sel[i].product.price > 0.0
    ensures CompileDisabled(sel) <==> sel == []
    ensures sel != [] ==> Total(sel) > 0.0
    decreases |sel|
  {
    if sel != [] {
      CompileDisabledIffEmpty(sel[1..]);
    }
  }

  /** `handleAddBuildToCart`: every selected product, in selection order, with the build tag. */
  function BuildItems(sel: Selection): (r: seq<(Product, string)>)
    ensures |r| == |sel|
    ensures forall i :: 0 <= i < |r| ==> r[i] == (sel[i].product, BuildTag)
  {
    if sel == [] then [] else [(sel[0].product, BuildTag)] + BuildItems(sel[1..])
  }

  /** `CATEGORIES.findIndex(c => c.id === id)`: the first position holding `id`, or -1. */
  function FindIndex(cats: seq<string>, id: string): (r: int)
    ensures -1 <= r < |cats|
    ensures r == -1 <==> id !in cats
    ensures r >= 0 ==> cats[r] == id && forall j :: 0 <= j < r ==> cats[j] != id
  {
    if cats == [] then -1
    else if cats[0] == id then 0
    else
      var k := FindIndex(cats[1..], id);
      if k == -1 then -1 else k + 1
  }

  /** `handleNext` over the step list `cats`. */
  function NextIn(cats: seq<string>, active: string): string
    requires cats != []
  {
    var idx := FindIndex(cats, active);
    if idx < |cats| - 1 then cats[idx + 1] else active
  }

  /** `handlePrev` over the step list `cats`. */
  function PrevIn(cats: seq<string>, active: string): string
  {
    var idx := FindIndex(cats, active);
    if idx > 0 then cats[idx - 1] else active
  }

  /** `progress`, in percent, over the step list `cats`. */
  function ProgressIn(cats: seq<string>, active: string): real
    requires cats != []
  {
    (FindIndex(cats, active) + 1) as real / |cats| as real * 100.0
  }

  function Next(active: string): string
  {
    NextIn(Categories, active)
  }

  function Prev(active: string): string
  {
    PrevIn(Categories, active)
  }

  function Progress(active: string): real
  {
    ProgressIn(Categories, active)
  }

  /** No step id is repeated. */
  lemma CategoriesDistinct()
    ensures Distinct(Categories)
  {
    var c := Categories;
    assert c[0][0] == 'C' && c[1][0] == 'M' && c[2][0] == 'R' && c[3][0] == 'R' && c[4][0] == 'G';
    assert c[5][0] == 'A' && c[6][0] == 'F' && c[7][0] == 'G' && c[8][0] == 'M' && c[9][0] == 'P';
    assert |c[2]| == 3 && |c[3]| == 13;
    assert |c[4]| == 3 && |c[7]| == 8;
    assert |c[1]| == 11 && |c[8]| == 7;
  }

  predicate Distinct(cats: seq<string>)
  {
    forall i, j :: 0 <= i < j < |cats| ==> cats[i] != cats[j]
  }

  /** In a list without repeats, an id's index is its position. */
  lemma FindDistinct(cats: seq<string>, k: int)
    requires Distinct(cats) && 0 <= k < |cats|
    ensures FindIndex(cats, cats[k]) == k
  {
  }

  /**
   * The step buttons never leave the steps: Next stops at the last, Prev
   * at the first, and between them each undoes the other.
   */
  lemma StepsStayInRangeIn(cats: seq<string>, active: string)
    requires Distinct(cats) && active in cats
    ensures NextIn(cats, active) in cats && PrevIn(cats, active) in cats
    ensures active == cats[|cats| - 1] <==> NextIn(cats, active) == active
    ensures active == cats[0] <==> PrevIn(cats, active) == active
    ensures active != cats[|cats| - 1] ==> PrevIn(cats, NextIn(cats, active)) == active
    ensures active != cats[0] ==> NextIn(cats, PrevIn(cats, active)) == active
  {
    var idx := FindIndex(cats, active);
    FindDistinct(cats, |cats| - 1);
    FindDistinct(cats, 0);
    if idx < |cats| - 1 {
      FindDistinct(cats, idx + 1);
    }
    if idx > 0 {
      FindDistinct(cats, idx - 1);
    }
  }

  lemma ProgressBoundsIn(cats: seq<string>, active: string)
    requires Distinct(cats) && cats != []
    ensures active in cats ==> 0.0 < ProgressIn(cats, active) <= 100.0
    ensures active == cats[|cats| - 1] ==> ProgressIn(cats, active) == 100.0
    ensures active !in cats ==> ProgressIn(cats, active) == 0.0
  {
    var n := |cats| as real;
    var k := (FindIndex(cats, active) + 1) as real;
    assert k <= n;
    assert k / n <= 1.0;
    if active == cats[|cats| - 1] {
      FindDistinct(cats, |cats| - 1);
      assert k / n == 1.0;
    }
  }

  /** The ten steps: the wizard never leaves them, and Next and Prev undo each other. */
  lemma StepsStayInRange(active: string)
    requires active in Categories
    ensures Next(active) in Categories && Prev(active) in Categories
    ensures active == "PERIFERICOS" <==> Next(active) == active
    ensures active == "CPU" <==> Prev(active) == active
    ensures active != "PERIFERICOS" ==> Prev(Next(active)) == active
    ensures active != "CPU" ==> Next(Prev(active)) == active
  {
    CategoriesDistinct();
    StepsStayInRangeIn(Categories, active);
  }

  /** The progress bar is within (0, 100] on every step, full on the last, and 0 for an unknown step. */
  lemma ProgressBounds(active: string)
    ensures active in Categories ==> 0.0 < Progress(active) <= 100.0
    ensures active == "PERIFERICOS" ==> Progress(active) == 100.0
    ensures active !in Categories ==> Progress(active) == 0.0
  {
    CategoriesDistinct();
    ProgressBoundsIn(Categories, active);
  }

  /** `products.filter(p => p.category === activeCategory)`. */
  function Filtered(products: seq<Product>, active: string): (r: seq<Product>)
    ensures forall p :: p in r <==> p in products && p.category == active
    ensures |r| <= |products|
  {
    if products == [] then []
    else if products[0].category == active then [products[0]] + Filtered(products[1..], active)
    else Filtered(products[1..], active)
  }
}

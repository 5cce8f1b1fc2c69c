// The NexusHardware back end: the Python reorder rule that stands in for the
// C engine, the optimisation report, the checkout and the grouping of sales
// into transactions on the admin dashboard.
module NexusStore {
  import opened Prelude
  import StockLogicC

  /** `python_optimize_stock`: the pure Python fallback for the C engine. */
  function PythonOptimizeStock(ventas: int, tiempo: int, stock: int): (r: int)
    ensures r >= 0
    ensures stock > TruncDiv(ventas * tiempo, 30) + TruncDiv(ventas, 5) ==> r == 0
    ensures r > 0 ==> stock + r == ventas + TruncDiv(ventas, 5)
  {
    var seguridad := TruncDiv(ventas, 5);
    var puntoReorden := TruncDiv(ventas * tiempo, 30) + seguridad;
    if stock <= puntoReorden then
      var cantidad := (ventas + seguridad) - stock;
      if cantidad >= 0 then cantidad else 0
    else
      0
  }

  /** The fallback computes what the C engine computes, on every integer input. */
  lemma PythonMatchesC(ventas: int, tiempo: int, stock: int)
    ensures PythonOptimizeStock(ventas, tiempo, stock) == StockLogicC.CalcularNecesidadCompra(ventas, tiempo, stock)
  {
  }

  datatype Product = Product(
    id: int, name: string, category: string, price: real, stock: int,
    leadTimeDays: Option<int>, monthlySalesAvg: Option<int>)

  /** Which implementation answers: the loaded C library, or the Python fallback. */
  datatype Engine = CEngine | PythonFallback

  datatype RestockStatus = Critical | Ok

  datatype Suggestion = Suggestion(
    id: int, name: string, stock: int, salesAvg: int, leadTime: int,
    restock: int, status: RestockStatus)

  /** `x or default` on a nullable integer column. */
  function OrDefault(x: Option<int>, default: int): int
  {
    if x.Some? && x.value != 0 then x.value else default
  }

  /** One row of the `/optimization` report. */
  function SuggestionFor(p: Product, engine: Engine): (s: Suggestion)
    ensures s.salesAvg == (if p.monthlySalesAvg.None? || p.monthlySalesAvg.value == 0 then 20 else p.monthlySalesAvg.value)
    ensures s.leadTime == (if p.leadTimeDays.None? || p.leadTimeDays.value == 0 then 7 else p.leadTimeDays.value)
    ensures s.restock == PythonOptimizeStock(s.salesAvg, s.leadTime, p.stock) && s.restock >= 0
    ensures s.status == Critical <==> s.restock > 0
    ensures s.id == p.id && s.name == p.name && s.stock == p.stock
  {
    var ventas := OrDefault(p.monthlySalesAvg, 20);
    var tiempo := OrDefault(p.leadTimeDays, 7);
    var raw := match engine
      case CEngine => StockLogicC.CalcularNecesidadCompra(ventas, tiempo, p.stock)
      case PythonFallback => PythonOptimizeStock(ventas, tiempo, p.stock);
    var sugerencia := if raw < 0 then 0 else raw;
    Suggestion(p.id, p.name, p.stock, ventas, tiempo, sugerencia, if sugerencia > 0 then Critical else Ok)
  }

  /** `get_optimization`: one suggestion per product, in order. */
  method GetOptimization(products: seq<Product>, engine: Engine) returns (results: seq<Suggestion>)
    ensures |results| == |products|
    ensures forall i :: 0 <= i < |products| ==> results[i] == SuggestionFor(products[i], engine)
  {
    results := [];
    var i := 0;
    while i < |products|
      invariant 0 <= i <= |products|
      invariant |results| == i
      invariant forall j :: 0 <= j < i ==> results[j] == SuggestionFor(products[j], engine)
    {
      var prod := products[i];
      var ventas := OrDefault(prod.monthlySalesAvg, 20);
      var tiempo := OrDefault(prod.leadTimeDays, 7);
      var sugerencia := 0;
      if engine == CEngine {
        sugerencia := StockLogicC.CalcularNecesidadCompra(ventas, tiempo, prod.stock);
      } else {
        sugerencia := PythonOptimizeStock(ventas, tiempo, prod.stock);
      }
      if sugerencia < 0 {
        sugerencia := 0;
      }
      results := results + [Suggestion(prod.id, prod.name, prod.stock, ventas, tiempo, sugerencia,
                                       if sugerencia > 0 then Critical else Ok)];
      i := i + 1;
    }
  }

  /** The report does not depend on which engine answered. */
  lemma EngineIrrelevant(p: Product)
    ensures SuggestionFor(p, CEngine) == SuggestionFor(p, PythonFallback)
  {
    var ventas := OrDefault(p.monthlySalesAvg, 20);
    var tiempo := OrDefault(p.leadTimeDays, 7);
    PythonMatchesC(ventas, tiempo, p.stock);
  }

  // ---------------------------------------------------------------- checkout

  datatype Sale = Sale(transactionId: string, productName: string, salePrice: real, purchaseType: string)

  datatype CheckoutError = NotFound(pid: int) | OutOfStock(pid: int)

  datatype Outcome<T> = Success(value: T) | Failure(error: CheckoutError)

  /** The products and the new sales once the first `|ids|` ids have been processed. */
  datatype Basket = Basket(products: map<int, Product>, sales: seq<Sale>)

  /** The checkout loop as a function of the ids processed so far. */
  function CheckoutRun(products: map<int, Product>, ids: seq<int>, purchaseType: string, tx: string): Outcome<Basket>
    decreases |ids|
  {
    if ids == [] then Success(Basket(products, []))
    else
      match CheckoutRun(products, ids[..|ids| - 1], purchaseType, tx)
      case Failure(e) => Failure(e)
      case Success(b) =>
        var pid := ids[|ids| - 1];
        if pid !in b.products then Failure(NotFound(pid))
        else if b.products[pid].stock <= 0 then Failure(OutOfStock(pid))
        else
          var p := b.products[pid];
          Success(Basket(b.products[pid := p.(stock := p.stock - 1)],
                         b.sales + [Sale(tx, p.name, p.price, purchaseType)]))
  }

  /** Every listed id is a known product whose stock covers all of its occurrences in the list. */
  predicate Covered(products: map<int, Product>, ids: seq<int>)
  {
    forall i :: 0 <= i < |ids| ==> ids[i] in products && Count(ids, ids[i]) <= products[ids[i]].stock
  }

  /** Sum of the listed products' prices, in list order. */
  function ListPrice(products: map<int, Product>, ids: seq<int>): real
    requires forall i :: 0 <= i < |ids| ==> ids[i] in products
  {
    if ids == [] then 0.0 else ListPrice(products, ids[..|ids| - 1]) + products[ids[|ids| - 1]].price
  }

  function SalesTotal(sales: seq<Sale>): real
  {
    if sales == [] then 0.0 else SalesTotal(sales[..|sales| - 1]) + sales[|sales| - 1].salePrice
  }

  /**
   * What a successful checkout leaves behind: each product's stock lowered by
   * the number of times its id is listed, the same catalogue otherwise, and
   * one sale per id, in order, all under the one transaction id, at the
   * product's name and price.
   */
  lemma {:induction false} CheckoutEffect(products: map<int, Product>, ids: seq<int>, purchaseType: string, tx: string)
    requires CheckoutRun(products, ids, purchaseType, tx).Success?
    ensures var b := CheckoutRun(products, ids, purchaseType, tx).value;
      && b.products.Keys == products.Keys
      && (forall k :: k in products ==> b.products[k] == products[k].(stock := products[k].stock - Count(ids, k)))
      && |b.sales| == |ids|
      && (forall i :: 0 <= i < |ids| ==>
            (ids[i] in products && b.sales[i] == Sale(tx, products[ids[i]].name, products[ids[i]].price, purchaseType)))
    decreases |ids|
  {
    if ids != [] {
      var front := ids[..|ids| - 1];
      var pid := ids[|ids| - 1];
      CheckoutEffect(products, front, purchaseType, tx);
      assert ids == front + [pid];
      forall k | k in products
        ensures Count(ids, k) == Count(front, k) + (if pid == k then 1 else 0)
      {
        CountAppend(front, [pid], k);
      }
    }
  }

  /** The checkout succeeds exactly when every listed product's stock covers its occurrences in the list. */
  lemma {:induction false} CheckoutSucceedsIff(products: map<int, Product>, ids: seq<int>, purchaseType: string, tx: string)
    ensures CheckoutRun(products, ids, purchaseType, tx).Success? <==> Covered(products, ids)
    decreases |ids|
  {
    if ids != [] {
      var front := ids[..|ids| - 1];
      var pid := ids[|ids| - 1];
      assert ids == front + [pid];
      CheckoutSucceedsIff(products, front, purchaseType, tx);
      forall k ensures Count(ids, k) == Count(front, k) + (if pid == k then 1 else 0) {
        CountAppend(front, [pid], k);
      }
      if CheckoutRun(products, front, purchaseType, tx).Success? {
        CheckoutEffect(products, front, purchaseType, tx);
      }
      if Covered(products, ids) {
        forall i | 0 <= i < |front| ensures front[i] in products && Count(front, front[i]) <= products[front[i]].stock {
          assert ids[i] == front[i];
        }
        assert Covered(products, front);
        assert pid in products && Count(ids, pid) <= products[pid].stock;
        CountPositive(front, pid);
      }
      if CheckoutRun(products, ids, purchaseType, tx).Success? {
        assert Covered(products, front);
        forall i | 0 <= i < |ids| ensures ids[i] in products && Count(ids, ids[i]) <= products[ids[i]].stock {
          if i < |front| {
            assert ids[i] == front[i];
          }
          CountPositive(front, pid);
        }
      }
    }
  }

  /** The sales a successful checkout writes add up to the listed products' prices. */
  lemma {:induction false} CheckoutTotal(products: map<int, Product>, ids: seq<int>, purchaseType: string, tx: string)
    requires CheckoutRun(products, ids, purchaseType, tx).Success?
    ensures forall i :: 0 <= i < |ids| ==> ids[i] in products
    ensures SalesTotal(CheckoutRun(products, ids, purchaseType, tx).value.sales) == ListPrice(products, ids)
    decreases |ids|
  {
    CheckoutEffect(products, ids, purchaseType, tx);
    if ids != [] {
      var front := ids[..|ids| - 1];
      CheckoutTotal(products, front, purchaseType, tx);
      var b := CheckoutRun(products, ids, purchaseType, tx).value;
      var bf := CheckoutRun(products, front, purchaseType, tx).value;
      assert b.sales[..|b.sales| - 1] == bf.sales;
    }
  }

  /** The shop's persistent tables. */
  class Store {
    var products: map<int, Product>
    var sales: seq<Sale>

    constructor (catalogue: map<int, Product>)
      ensures products == catalogue && sales == []
    {
      products := catalogue;
      sales := [];
    }

    /**
     * `checkout`: one stock decrement and one sale per listed id. The session
     * is committed only after the loop, so an error leaves both tables as they
     * were.
     */
    method Checkout(ids: seq<int>, purchaseType: string, tx: string) returns (r: Outcome<()>)
      modifies this
      ensures CheckoutRun(old(products), ids, purchaseType, tx).Failure? ==>
        r == Failure(CheckoutRun(old(products), ids, purchaseType, tx).error)
        && products == old(products) && sales == old(sales)
      ensures CheckoutRun(old(products), ids, purchaseType, tx).Success? ==>
        r == Success(())
        && products == CheckoutRun(old(products), ids, purchaseType, tx).value.products
        && sales == old(sales) + CheckoutRun(old(products), ids, purchaseType, tx).value.sales
    {
      var session := products;
      var added: seq<Sale> := [];
      var i := 0;
      while i < |ids|
        invariant 0 <= i <= |ids|
        invariant CheckoutRun(products, ids[..i], purchaseType, tx) == Success(Basket(session, added))
      {
        assert ids[..i + 1][..i] == ids[..i];
        var pid := ids[i];
        if pid !in session {
          FailureSticks(products, ids, i + 1, purchaseType, tx);
          return Failure(NotFound(pid));
        }
        if session[pid].stock <= 0 {
          FailureSticks(products, ids, i + 1, purchaseType, tx);
          return Failure(OutOfStock(pid));
        }
        var p := session[pid];
        session := session[pid := p.(stock := p.stock - 1)];
        added := added + [Sale(tx, p.name, p.price, purchaseType)];
        i := i + 1;
      }
      assert ids[..i] == ids;
      products := session;
      sales := sales + added;
      return Success(());
    }
  }

  /** Once a prefix of the ids fails, the whole checkout fails with the same error. */
  lemma {:induction false} FailureSticks(products: map<int, Product>, ids: seq<int>, n: nat, purchaseType: string, tx: string)
    requires n <= |ids|
    requires CheckoutRun(products, ids[..n], purchaseType, tx).Failure?
    ensures CheckoutRun(products, ids, purchaseType, tx) == CheckoutRun(products, ids[..n], purchaseType, tx)
    decreases |ids| - n
  {
    if n < |ids| {
      assert ids[..n + 1][..n] == ids[..n];
      FailureSticks(products, ids, n + 1, purchaseType, tx);
    } else {
      assert ids[..n] == ids;
    }
  }

  // -------------------------------------------------- dashboard aggregation

  /** The sales of one transaction, in table order. */
  function SalesOf(sales: seq<Sale>, tx: string): (r: seq<Sale>)
    ensures forall i :: 0 <= i < |r| ==> r[i] in sales && r[i].transactionId == tx
    ensures |r| <= |sales|
  {
    if sales == [] then []
    else SalesOf(sales[..|sales| - 1], tx) + (if sales[|sales| - 1].transactionId == tx then [sales[|sales| - 1]] else [])
  }

  datatype TxSummary = TxSummary(transactionId: string, totalValue: real, itemsCount: nat, purchaseType: string)

  /** One entry of `recent_transactions`. */
  function Summarize(sales: seq<Sale>, tx: string): TxSummary
  {
    var items := SalesOf(sales, tx);
    TxSummary(tx, SalesTotal(items), |items|, if items != [] then items[0].purchaseType else "INDIVIDUAL")
  }

  lemma {:induction false} SalesOfAppend(a: seq<Sale>, b: seq<Sale>, tx: string)
    ensures SalesOf(a + b, tx) == SalesOf(a, tx) + SalesOf(b, tx)
    decreases |b|
  {
    if b == [] {
      assert a + b == a;
    } else {
      assert (a + b)[..|a + b| - 1] == a + b[..|b| - 1];
      SalesOfAppend(a, b[..|b| - 1], tx);
    }
  }

  lemma {:induction false} SalesOfNone(sales: seq<Sale>, tx: string)
    requires forall i :: 0 <= i < |sales| ==> sales[i].transactionId != tx
    ensures SalesOf(sales, tx) == []
    decreases |sales|
  {
    if sales != [] {
      SalesOfNone(sales[..|sales| - 1], tx);
    }
  }

  lemma {:induction false} SalesOfAll(sales: seq<Sale>, tx: string)
    requires forall i :: 0 <= i < |sales| ==> sales[i].transactionId == tx
    ensures SalesOf(sales, tx) == sales
    decreases |sales|
  {
    if sales != [] {
      SalesOfAll(sales[..|sales| - 1], tx);
    }
  }

  /**
   * After a successful checkout under a transaction id not used before, the
   * dashboard reports that transaction with one item per listed id, a total
   * equal to the listed products' prices, and the order's purchase type.
   */
  lemma CheckoutSummary(before: seq<Sale>, products: map<int, Product>, ids: seq<int>, purchaseType: string, tx: string)
    requires forall i :: 0 <= i < |before| ==> before[i].transactionId != tx
    requires CheckoutRun(products, ids, purchaseType, tx).Success?
    requires ids != []
    ensures forall i :: 0 <= i < |ids| ==> ids[i] in products
    ensures Summarize(before + CheckoutRun(products, ids, purchaseType, tx).value.sales, tx)
         == TxSummary(tx, ListPrice(products, ids), |ids|, purchaseType)
  {
    var added := CheckoutRun(products, ids, purchaseType, tx).value.sales;
    CheckoutEffect(products, ids, purchaseType, tx);
    CheckoutTotal(products, ids, purchaseType, tx);
    SalesOfAppend(before, added, tx);
    SalesOfNone(before, tx);
    SalesOfAll(added, tx);
    assert [] + added == added;
  }
}

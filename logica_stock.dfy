// The reorder rule of the NexusHardware C engine, `calcular_necesidad_compra`.
// `(double)ventas / 30.0 * tiempo` and `ventas * 0.20` are exact rationals
// here, so each `(int)` cast is a truncation toward zero of a quotient.
module StockLogicC {
  import opened Prelude

  /** `stock_seguridad = (int)(ventas_mes * 0.20)`: a fifth of the monthly sales, truncated. */
  function SafetyStock(ventas: int): (r: int)
    ensures 0 <= ventas ==> 0 <= 5 * r <= ventas < 5 * r + 5
  {
    TruncDiv(ventas, 5)
  }

  /** `punto_reorden = (int)(ventas / 30.0 * tiempo) + stock_seguridad`. */
  function ReorderPoint(ventas: int, tiempo: int): (r: int)
    ensures 0 <= ventas * tiempo ==> 0 <= 30 * (r - SafetyStock(ventas)) <= ventas * tiempo < 30 * (r - SafetyStock(ventas)) + 30
  {
    TruncDiv(ventas * tiempo, 30) + SafetyStock(ventas)
  }

  /**
   * The purchase quantity: when stock is at or below the reorder point, enough
   * to bring it up to a month of sales plus the safety stock; otherwise none.
   */
  function CalcularNecesidadCompra(ventas: int, tiempo: int, stock: int): (r: int)
    ensures r >= 0
    ensures stock > ReorderPoint(ventas, tiempo) ==> r == 0
    ensures r > 0 <==> stock <= ReorderPoint(ventas, tiempo) && stock < ventas + SafetyStock(ventas)
    ensures r > 0 ==> stock + r == ventas + SafetyStock(ventas)
  {
    if stock <= ReorderPoint(ventas, tiempo) then
      var cantidad := (ventas + SafetyStock(ventas)) - stock;
      if cantidad > 0 then cantidad else 0
    else
      0
  }

  const Int32Min: int := -0x8000_0000
  const Int32Max: int := 0x7FFF_FFFF

  predicate InInt32(x: int)
  {
    Int32Min <= x <= Int32Max
  }

  /**
   * The C function computes what this model computes only while every `int`
   * it holds is a 32-bit value: its three arguments, the cast of the daily
   * sales times the lead time, the reorder point and both steps of the
   * purchase quantity. Beyond that, signed overflow and out-of-range casts
   * are undefined behaviour in C.
   */
  predicate DefinedInC(ventas: int, tiempo: int, stock: int)
  {
    InInt32(ventas) && InInt32(tiempo) && InInt32(stock)
    && InInt32(TruncDiv(ventas * tiempo, 30)) && InInt32(SafetyStock(ventas))
    && InInt32(ReorderPoint(ventas, tiempo))
    && InInt32(ventas + SafetyStock(ventas)) && InInt32(ventas + SafetyStock(ventas) - stock)
  }

  /** Monthly sales up to a billion, a lead time up to a month and any stock count keep the C function defined. */
  lemma EverydayInputsDefined(ventas: int, tiempo: int, stock: int)
    requires 0 <= ventas <= 1_000_000_000 && 0 <= tiempo <= 30 && 0 <= stock <= Int32Max
    ensures DefinedInC(ventas, tiempo, stock)
  {
    assert ventas * tiempo <= ventas * 30 by {
      assert ventas * (30 - tiempo) >= 0 by { MulNonNegative(ventas, 30 - tiempo); }
    }
    var q := TruncDiv(ventas * tiempo, 30);
    assert q * 30 <= 30 * 1_000_000_000;
  }

  /** Monthly sales at the top of the 32-bit range overflow `ventas_mes + stock_seguridad`. */
  lemma TopSalesOverflow()
    ensures !DefinedInC(Int32Max, 7, 0)
  {
    assert SafetyStock(Int32Max) > 0;
  }
}

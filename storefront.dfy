// The NexusHardware store front: the cart kept by `App` and the `Cart`
// drawer that shows it, totals it and starts the checkout.
module Storefront {
  import opened Prelude
  import opened NexusStore
  import PcBuilder

  /** `addToCart(product)`: the product goes to the end of the cart. */
  function AddToCart(cart: seq<Product>, product: Product): (r: seq<Product>)
    ensures |r| == |cart| + 1 && r[..|cart|] == cart && r[|cart|] == product
  {
    cart + [product]
  }

  /** `prev.filter((_, i) => i !== index)`, walking positions from `from`. */
  function DropIndex(cart: seq<Product>, index: int, from: int): seq<Product>
    decreases |cart|
  {
    if cart == [] then []
    else (if from == index then [] else [cart[0]]) + DropIndex(cart[1..], index, from + 1)
  }

  /** `removeFromCart(index)`. */
  function RemoveFromCart(cart: seq<Product>, index: int): seq<Product>
  {
    DropIndex(cart, index, 0)
  }

  lemma {:induction false} DropIndexInside(cart: seq<Product>, index: int, from: int)
    requires from <= index < from + |cart|
    ensures DropIndex(cart, index, from) == cart[..index - from] + cart[index - from + 1..]
    decreases |cart|
  {
    if from == index {
      DropIndexOutside(cart[1..], index, from + 1);
      assert cart[..0] + cart[1..] == cart[1..];
    } else {
      var rest, k := cart[1..], index - from;
      DropIndexInside(rest, index, from + 1);
      assert DropIndex(cart, index, from) == [cart[0]] + DropIndex(rest, index, from + 1);
      assert DropIndex(rest, index, from + 1) == rest[..k - 1] + rest[k..];
      assert cart[..k] == [cart[0]] + rest[..k - 1];
      assert cart[k + 1..] == rest[k..];
    }
  }

  lemma {:induction false} DropIndexOutside(cart: seq<Product>, index: int, from: int)
    requires !(from <= index < from + |cart|)
    ensures DropIndex(cart, index, from) == cart
    decreases |cart|
  {
    if cart != [] {
      DropIndexOutside(cart[1..], index, from + 1);
      assert cart == [cart[0]] + cart[1..];
    }
  }

  /** Removing row `index` drops that row alone and keeps the others in order; any other index changes nothing. */
  lemma RemoveOnlyThatRow(cart: seq<Product>, index: int)
    ensures 0 <= index < |cart| ==> RemoveFromCart(cart, index) == cart[..index] + cart[index + 1..]
    ensures !(0 <= index < |cart|) ==> RemoveFromCart(cart, index) == cart
  {
    if 0 <= index < |cart| {
      DropIndexInside(cart, index, 0);
    } else {
      DropIndexOutside(cart, index, 0);
    }
  }

  /** The `Cart` drawer's `total`. */
  function CartTotal(items: seq<Product>): real
  {
    if items == [] then 0.0 else CartTotal(items[..|items| - 1]) + items[|items| - 1].price
  }

  lemma {:induction false} CartTotalAppend(a: seq<Product>, b: seq<Product>)
    ensures CartTotal(a + b) == CartTotal(a) + CartTotal(b)
    decreases |b|
  {
    if b == [] {
      assert a + b == a;
    } else {
      CartTotalAppend(a, b[..|b| - 1]);
      assert (a + b)[..|a + b| - 1] == a + b[..|b| - 1];
      assert (a + b)[|a + b| - 1] == b[|b| - 1];
    }
  }

  /** Adding raises the total by the product's price. */
  lemma AddRaisesTotal(cart: seq<Product>, product: Product)
    ensures CartTotal(AddToCart(cart, product)) == CartTotal(cart) + product.price
  {
    var r := AddToCart(cart, product);
    assert r[..|r| - 1] == cart;
  }

  /** A row's price is its share of the total, wherever the row stands. */
  lemma RowShare(left: seq<Product>, x: Product, right: seq<Product>)
    ensures CartTotal(left + [x] + right) == CartTotal(left + right) + x.price
  {
    CartTotalAppend(left + [x], right);
    AddRaisesTotal(left, x);
    CartTotalAppend(left, right);
  }

  /** Removing a row lowers the total by that row's price. */
  lemma RemoveLowersTotal(cart: seq<Product>, index: int)
    requires 0 <= index < |cart|
    ensures CartTotal(RemoveFromCart(cart, index)) == CartTotal(cart) - cart[index].price
  {
    RemoveOnlyThatRow(cart, index);
    SplitAtRow(cart, index);
    RowShare(cart[..index], cart[index], cart[index + 1..]);
  }

  lemma SplitAtRow(cart: seq<Product>, index: int)
    requires 0 <= index < |cart|
    ensures cart == cart[..index] + [cart[index]] + cart[index + 1..]
  {
    assert cart[index..] == [cart[index]] + cart[index + 1..];
    assert cart == cart[..index] + cart[index..];
  }

  /** `product_ids: cart.map(item => item.id)`. */
  function OrderIds(cart: seq<Product>): (r: seq<int>)
    ensures |r| == |cart| && forall i :: 0 <= i < |cart| ==> r[i] == cart[i].id
  {
    if cart == [] then [] else OrderIds(cart[..|cart| - 1]) + [cart[|cart| - 1].id]
  }

  /** The body of the checkout request. */
  datatype Order = Order(productIds: seq<int>, purchaseType: string)

  function OrderOf(cart: seq<Product>): Order
  {
    Order(OrderIds(cart), "INDIVIDUAL")
  }

  /** Every cart row is the catalogue's current record for its id. */
  predicate Current(catalogue: map<int, Product>, cart: seq<Product>)
  {
    forall i :: 0 <= i < |cart| ==> cart[i].id in catalogue && catalogue[cart[i].id] == cart[i]
  }

  /**
   * When the cart's rows are the catalogue's current records and the
   * checkout succeeds, the sales it writes add up to the total the drawer
   * showed.
   */
  lemma {:induction false} ChargedWhatWasShown(catalogue: map<int, Product>, cart: seq<Product>, tx: string)
    requires Current(catalogue, cart)
    requires CheckoutRun(catalogue, OrderIds(cart), "INDIVIDUAL", tx).Success?
    ensures SalesTotal(CheckoutRun(catalogue, OrderIds(cart), "INDIVIDUAL", tx).value.sales) == CartTotal(cart)
  {
    CheckoutTotal(catalogue, OrderIds(cart), "INDIVIDUAL", tx);
    ListPriceIsCartTotal(catalogue, cart);
  }

  lemma {:induction false} ListPriceIsCartTotal(catalogue: map<int, Product>, cart: seq<Product>)
    requires Current(catalogue, cart)
    ensures ListPrice(catalogue, OrderIds(cart)) == CartTotal(cart)
    decreases |cart|
  {
    if cart != [] {
      var front := cart[..|cart| - 1];
      assert OrderIds(cart)[..|cart| - 1] == OrderIds(front);
      ListPriceIsCartTotal(catalogue, front);
    }
  }

  /** The `Cart` button's `disabled={checkoutDisabled || cartItems.length === 0}`. */
  predicate CheckoutDisabled(isCheckingOut: bool, items: seq<Product>)
  {
    isCheckingOut || |items| == 0
  }

  /** The drawer shows its empty state instead of rows exactly when the cart is empty. */
  predicate ShowsEmptyState(items: seq<Product>)
  {
    |items| == 0
  }

  /** What `App` renders for the current view. */
  datatype Screen = LoginScreen | StoreScreen | BuilderScreen | DashboardScreen | OtherScreen(view: string)

  function ScreenOf(view: string, isAuthenticated: bool): (r: Screen)
    ensures r == DashboardScreen ==> isAuthenticated
    ensures r == LoginScreen <==> view == "dashboard" && !isAuthenticated
  {
    if view == "dashboard" && !isAuthenticated then LoginScreen
    else if view == "dashboard" then DashboardScreen
    else if view == "store" then StoreScreen
    else if view == "builder" then BuilderScreen
    else OtherScreen(view)
  }

  /** `App`'s state for the cart, the checkout and the dashboard guard. */
  class Store {
    var cart: seq<Product>
    var isCartOpen: bool
    var isCheckingOut: bool
    var view: string
    var isAuthenticated: bool
    var username: string

    constructor ()
      ensures cart == [] && !isCartOpen && !isCheckingOut
      ensures view == "store" && !isAuthenticated && username == ""
    {
      cart := [];
      isCartOpen := false;
      isCheckingOut := false;
      view := "store";
      isAuthenticated := false;
      username := "";
    }

    /** `addToCart(product)`: appends and opens the drawer. */
    method Add(product: Product)
      modifies this`cart, this`isCartOpen
      ensures cart == AddToCart(old(cart), product) && isCartOpen
    {
      cart := AddToCart(cart, product);
      isCartOpen := true;
    }

    /**
     * The builder's compile button: `onAddToCart(item, 'ARMA_TU_PC')` once
     * per selected product. `addToCart` takes one parameter, so the tag is
     * dropped and the products arrive as plain cart rows, in selection order.
     */
    method AddBuild(sel: PcBuilder.Selection)
      modifies this`cart, this`isCartOpen
      ensures cart == old(cart) + Products(PcBuilder.BuildItems(sel))
      ensures sel != [] ==> isCartOpen
      ensures sel == [] ==> isCartOpen == old(isCartOpen)
    {
      var items := PcBuilder.BuildItems(sel);
      ghost var start := cart;
      var i := 0;
      while i < |items|
        invariant 0 <= i <= |items|
        invariant cart == start + Products(items[..i])
        invariant i > 0 ==> isCartOpen
        invariant i == 0 ==> isCartOpen == old(isCartOpen)
      {
        var product := items[i].0;
        assert items[..i + 1][..i] == items[..i];
        Add(product);
        i := i + 1;
      }
      assert items[..|items|] == items;
    }

    /** `removeFromCart(index)`. */
    method Remove(index: int)
      modifies this`cart
      ensures cart == RemoveFromCart(old(cart), index)
    {
      cart := RemoveFromCart(cart, index);
    }

    /** `handleCheckout` up to the request: the order sent is the cart's ids in order, duplicates included. */
    method BeginCheckout() returns (order: Order)
      modifies this`isCheckingOut
      ensures isCheckingOut && order == OrderOf(cart)
    {
      isCheckingOut := true;
      order := OrderOf(cart);
    }

    /** The request's answer: a success empties and closes the cart; a failure leaves it as it was. */
    method FinishCheckout(succeeded: bool)
      modifies this`cart, this`isCartOpen, this`isCheckingOut
      ensures !isCheckingOut
      ensures succeeded ==> cart == [] && !isCartOpen
      ensures !succeeded ==> cart == old(cart) && isCartOpen == old(isCartOpen)
    {
      if succeeded {
        cart := [];
        isCartOpen := false;
      }
      isCheckingOut := false;
    }

    /** `handleLogin(user)`. */
    method Login(user: string)
      modifies this`isAuthenticated, this`username, this`view
      ensures isAuthenticated && username == user && view == "dashboard"
      ensures ScreenOf(view, isAuthenticated) == DashboardScreen
    {
      isAuthenticated := true;
      username := user;
      view := "dashboard";
    }
  }

  /** The products of a list of tagged items, the tags dropped. */
  function Products(items: seq<(Product, string)>): (r: seq<Product>)
    ensures |r| == |items| && forall i :: 0 <= i < |items| ==> r[i] == items[i].0
  {
    if items == [] then [] else Products(items[..|items| - 1]) + [items[|items| - 1].0]
  }

  /** The cart rows a build adds are its selected products, in selection order. */
  lemma BuildArrivesInOrder(sel: PcBuilder.Selection)
    ensures |Products(PcBuilder.BuildItems(sel))| == |sel|
    ensures forall i :: 0 <= i < |sel| ==> Products(PcBuilder.BuildItems(sel))[i] == sel[i].product
  {
  }

  /** While a checkout is running the button is disabled, so a second order cannot start. */
  lemma NoDoubleCheckout(items: seq<Product>)
    ensures CheckoutDisabled(true, items)
    ensures CheckoutDisabled(false, items) <==> ShowsEmptyState(items)
  {
  }
}

/** The cart page (pages/CartPage.tsx) and the checkout page
    (pages/CheckoutPage.tsx): the total both compute from the cart and the
    catalogue, the cart's lines with their quantity buttons, and the order
    the checkout form submits. */
module CartPages {
  import opened Types
  import opened Seqs
  import CartStore

  // --- The total ---

  /** What one cart line adds to the total: its product's price times its
      quantity, or nothing when the product is no longer in the catalogue. */
  function LineAmount(products: seq<Product>, item: CartItem): (a: real)
    ensures FindProduct(products, item.productId).None? ==> a == 0.0
    ensures FindProduct(products, item.productId).Some? ==>
              a == FindProduct(products, item.productId).value.price * item.quantity as real
  {
    match FindProduct(products, item.productId)
    case None => 0.0
    case Some(p) => p.price * item.quantity as real
  }

  /** The `reduce` over the cart lines from 0, left to right. */
  function CartTotal(products: seq<Product>, items: seq<CartItem>): real
    decreases |items|
  {
    if items == [] then 0.0
    else CartTotal(products, items[..|items| - 1]) + LineAmount(products, items[|items| - 1])
  }

  /** The total of two runs of lines is the sum of their totals. */
  lemma {:induction false} TotalConcat(products: seq<Product>, a: seq<CartItem>, b: seq<CartItem>)
    ensures CartTotal(products, a + b) == CartTotal(products, a) + CartTotal(products, b)
    decreases |b|
  {
    if b != [] {
      var c := a + b;
      assert c[..|c| - 1] == a + b[..|b| - 1];
      assert c[|c| - 1] == b[|b| - 1];
      TotalConcat(products, a, b[..|b| - 1]);
    } else {
      assert a + b == a;
    }
  }

  /** Whether a line's product is still in the catalogue. */
  function Known(products: seq<Product>): CartItem -> bool
  {
    (item: CartItem) => FindProduct(products, item.productId).Some?
  }

  /** Lines whose product has left the catalogue count for nothing: the total
      is the total of the listed lines alone. */
  lemma {:induction false} TotalIgnoresMissing(products: seq<Product>, items: seq<CartItem>)
    ensures CartTotal(products, items) == CartTotal(products, Filter(items, Known(products)))
    decreases |items|
  {
    if items != [] {
      var x, rest := items[0], items[1..];
      assert items == [x] + rest;
      TotalConcat(products, [x], rest);
      TotalIgnoresMissing(products, rest);
      assert [x][..0] == [];
      assert CartTotal(products, [x]) == LineAmount(products, x);
      if Known(products)(x) {
        TotalConcat(products, [x], Filter(rest, Known(products)));
      }
    }
  }

  /** With non-negative prices and quantities the total is never negative. */
  lemma {:induction false} TotalNonNegative(products: seq<Product>, items: seq<CartItem>)
    requires forall p :: p in products ==> p.price >= 0.0
    requires forall i :: i in items ==> i.quantity >= 0
    ensures CartTotal(products, items) >= 0.0
    decreases |items|
  {
    if items != [] {
      var init, last := items[..|items| - 1], items[|items| - 1];
      assert forall i :: i in init ==> i in items;
      TotalNonNegative(products, init);
      assert last in items;
      LineAmountNonNegative(products, last);
    }
  }

  lemma LineAmountNonNegative(products: seq<Product>, item: CartItem)
    requires forall p :: p in products ==> p.price >= 0.0
    requires item.quantity >= 0
    ensures LineAmount(products, item) >= 0.0
  {
    var p := FindProduct(products, item.productId);
    if p.Some? {
      assert p.value in products;
      NonNegativeProduct(p.value.price, item.quantity as real);
    }
  }

  lemma NonNegativeProduct(a: real, b: real)
    requires a >= 0.0 && b >= 0.0
    ensures a * b >= 0.0
  {
  }

  // --- The cart page ---

  /** A shown line: its product, its amount, whether it is at the stock, and
      the quantities its - and + buttons ask for (+ is disabled at the stock). */
  datatype LineView = LineView(item: CartItem, product: Product, amount: real, atMax: bool,
                               minus: int, plus: Option<int>)

  function LineFor(item: CartItem, product: Product): (v: LineView)
    ensures v.item == item && v.product == product
    ensures v.amount == product.price * item.quantity as real
    ensures v.atMax <==> item.quantity >= product.stock
    ensures v.minus == item.quantity - 1
    ensures v.plus.None? <==> item.quantity >= product.stock
    ensures v.plus.Some? ==> v.plus.value == item.quantity + 1 && v.plus.value <= product.stock
  {
    var atMax := item.quantity >= product.stock;
    LineView(item, product, product.price * item.quantity as real, atMax,
             item.quantity - 1, if atMax then None else Some(item.quantity + 1))
  }

  /** The lines whose product is known, in cart order, each with that product. */
  function CartLines(products: seq<Product>, items: seq<CartItem>): (r: seq<LineView>)
    ensures |r| == |Filter(items, Known(products))|
    ensures forall k :: 0 <= k < |r| ==> r[k].item == Filter(items, Known(products))[k]
    ensures forall k :: 0 <= k < |r| ==>
              Some(r[k].product) == FindProduct(products, r[k].item.productId) && r[k] == LineFor(r[k].item, r[k].product)
  {
    var listed := Filter(items, Known(products));
    assert forall k :: 0 <= k < |listed| ==> Known(products)(listed[k]) by {
      forall k | 0 <= k < |listed| ensures Known(products)(listed[k]) {
        assert listed[k] in listed;
      }
    }
    seq(|listed|, k requires 0 <= k < |listed| && Known(products)(listed[k]) =>
                    LineFor(listed[k], FindProduct(products, listed[k].productId).value))
  }

  /** Every shown line is a cart line, and every cart line whose product is
      known is shown. */
  lemma CartLinesCover(products: seq<Product>, items: seq<CartItem>)
    ensures forall k :: 0 <= k < |CartLines(products, items)| ==> CartLines(products, items)[k].item in items
    ensures forall i :: i in items && Known(products)(i) ==>
              exists k :: 0 <= k < |CartLines(products, items)| && CartLines(products, items)[k].item == i
  {
    var listed, r := Filter(items, Known(products)), CartLines(products, items);
    forall k | 0 <= k < |r| ensures r[k].item in items {
      assert listed[k] in listed;
    }
    forall i | i in items && Known(products)(i) ensures exists k :: 0 <= k < |r| && r[k].item == i {
      assert i in listed;
      var k :| 0 <= k < |listed| && listed[k] == i;
      assert r[k].item == i;
    }
  }

  /** The - button of a single unit asks for 0, which the cart store treats
      as removing the line. */
  lemma DecrementFromOneRemoves(items: seq<CartItem>, product: Product)
    ensures LineFor(CartItem(product.id, 1), product).minus == 0
    ensures product.id !in CartStore.Ids(CartStore.Without(items, product.id))
  {
  }

  datatype CartView = EmptyCart | CartTable(lines: seq<LineView>, total: real)

  /** An empty cart shows only the empty view; otherwise the known lines and
      the total of the whole cart. */
  function CartPage(products: seq<Product>, items: seq<CartItem>): (v: CartView)
    ensures v.EmptyCart? <==> items == []
    ensures v.CartTable? ==> v.lines == CartLines(products, items) && v.total == CartTotal(products, items)
  {
    if items == [] then EmptyCart else CartTable(CartLines(products, items), CartTotal(products, items))
  }

  /** A cart whose products have all left the catalogue is not empty: it
      shows the table with no lines and a zero total. */
  lemma AllMissingCart(products: seq<Product>, items: seq<CartItem>)
    requires items != []
    requires forall i :: i in items ==> FindProduct(products, i.productId).None?
    ensures CartPage(products, items) == CartTable([], 0.0)
  {
    FilterNone(items, Known(products));
    TotalIgnoresMissing(products, items);
  }

  // --- The checkout page ---

  /** The signed-in user as the checkout sees it. */
  datatype AuthUser = AuthUser(id: string, fullName: Option<string>, phone: Option<string>)

  /** `handleSubmit`: all three fields must be non-empty as typed (blank
      space is accepted); the order then carries the cart unchanged, the
      cart's total, the payment method and the user's id when signed in. */
  function PlaceOrder(customerName: string, address: string, phone: string, paymentMethod: PaymentMethod,
                      products: seq<Product>, items: seq<CartItem>, user: Option<AuthUser>): (r: Option<OrderDraft>)
    ensures r.Some? <==> customerName != "" && address != "" && phone != ""
    ensures r.Some? ==> r.value.items == items && r.value.total == CartTotal(products, items)
                        && r.value.customerName == customerName && r.value.address == address
                        && r.value.phone == phone && r.value.paymentMethod == paymentMethod
                        && (r.value.userId.Some? <==> user.Some?)
                        && (user.Some? ==> r.value.userId.value == user.value.id)
  {
    if customerName != "" && address != "" && phone != "" then
      var userId := if user.Some? then Some(user.value.id) else None;
      Some(OrderDraft(userId, customerName, address, phone, CartTotal(products, items), items, paymentMethod))
    else None
  }

  /** The checkout's total is the cart page's: both leave out missing products. */
  lemma CheckoutTotalIsCartTotal(products: seq<Product>, items: seq<CartItem>, user: Option<AuthUser>)
    requires items != []
    ensures var d := PlaceOrder("n", "a", "p", Cod, products, items, user);
            d.Some? && d.value.total == CartPage(products, items).total
  {
  }

  /** The checkout form's fields. */
  class CheckoutForm {
    var customerName: string
    var address: string
    var phone: string
    var paymentMethod: PaymentMethod

    /** Empty fields and cash on delivery. */
    constructor()
      ensures customerName == "" && address == "" && phone == "" && paymentMethod == Cod
    {
      customerName := "";
      address := "";
      phone := "";
      paymentMethod := Cod;
    }

    /** The effect on a signed-in user: their full name and phone, or empty
        text where they have none; the address is left as it is. */
    method Prefill(user: AuthUser)
      modifies this
      ensures customerName == (if TextTruthy(user.fullName) then user.fullName.value else "")
      ensures phone == (if TextTruthy(user.phone) then user.phone.value else "")
      ensures address == old(address) && paymentMethod == old(paymentMethod)
    {
      customerName := if TextTruthy(user.fullName) then user.fullName.value else "";
      phone := if TextTruthy(user.phone) then user.phone.value else "";
    }

    method SetAddress(a: string)
      modifies this
      ensures address == a && customerName == old(customerName) && phone == old(phone)
      ensures paymentMethod == old(paymentMethod)
    {
      address := a;
    }

    /** The form exists only over a non-empty cart; submitting it asks for
        the order `PlaceOrder` describes, or for nothing (the alert). */
    method Submit(products: seq<Product>, items: seq<CartItem>, user: Option<AuthUser>) returns (order: Option<OrderDraft>)
      requires items != []
      ensures order == PlaceOrder(customerName, address, phone, paymentMethod, products, items, user)
      ensures order.Some? ==> order.value.items == items
    {
      if customerName != "" && address != "" && phone != "" {
        var userId := if user.Some? then Some(user.value.id) else None;
        order := Some(OrderDraft(userId, customerName, address, phone, CartTotal(products, items), items, paymentMethod));
      } else {
        order := None;
      }
    }
  }

  datatype CheckoutView = NothingToCheckout | CheckoutPage(total: real)

  /** An empty cart gives the page with no form, so no order can come from it. */
  function Checkout(products: seq<Product>, items: seq<CartItem>): (v: CheckoutView)
    ensures v.NothingToCheckout? <==> items == []
    ensures v.CheckoutPage? ==> v.total == CartTotal(products, items)
  {
    if items == [] then NothingToCheckout else CheckoutPage(CartTotal(products, items))
  }
}

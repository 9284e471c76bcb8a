/** The quick-view dialog (components/QuickViewModal.tsx): a quantity picker
    clamped to the stock, and the add button that sends the quantity and
    closes the dialog. */
module QuickView {
  import opened Types
  import ProductCard

  /** The setter's update: a result below 1 becomes 1, one above the stock
      becomes the stock, anything else is kept. */
  function Clamped(prev: int, amount: int, stock: int): (q: int)
    ensures prev + amount < 1 ==> q == 1
    ensures 1 <= prev + amount && prev + amount > stock ==> q == stock
    ensures 1 <= prev + amount <= stock ==> q == prev + amount
    ensures stock >= 1 ==> 1 <= q <= stock
  {
    var n := prev + amount;
    if n < 1 then 1 else if n > stock then stock else n
  }

  /** The quantity after a sequence of button presses. */
  function AfterChanges(q: int, amounts: seq<int>, stock: int): int
    decreases |amounts|
  {
    if amounts == [] then q else AfterChanges(Clamped(q, amounts[0], stock), amounts[1..], stock)
  }

  /** With something in stock, any presses from any start leave the quantity
      between 1 and the stock once one press has happened, and a start in
      that range stays in it. */
  lemma {:induction false} ChangesStayInRange(q: int, amounts: seq<int>, stock: int)
    requires stock >= 1 && 1 <= q <= stock
    ensures 1 <= AfterChanges(q, amounts, stock) <= stock
    decreases |amounts|
  {
    if amounts != [] {
      ChangesStayInRange(Clamped(q, amounts[0], stock), amounts[1..], stock);
    }
  }

  /** `renderStars`: star `i` of 1..5 is filled when `i <= average`, the
      product card's row. */
  function StarRow(p: Product): (r: seq<bool>)
    ensures |r| == 5
    ensures forall k :: 0 <= k < 5 ==> (r[k] <==> (k + 1) as real <= p.ratings.average)
  {
    ProductCard.Stars(p.ratings.average)
  }

  /** The modal's `renderStars`, the same loop as the card's over the
      product's average. */
  method RenderStars(p: Product) returns (stars: seq<bool>)
    ensures stars == StarRow(p)
  {
    stars := ProductCard.RenderStars(p.ratings.average);
  }

  /** The dialog over one product. */
  class Dialog {
    const product: Product
    var quantity: int
    var open: bool

    constructor(product: Product)
      ensures this.product == product && quantity == 1 && open
    {
      this.product := product;
      quantity := 1;
      open := true;
    }

    /** The -/+ buttons, shown only while the product is in stock. */
    method ChangeQuantity(amount: int)
      requires !ProductCard.OutOfStock(product)
      modifies this
      ensures quantity == Clamped(old(quantity), amount, product.stock) && open == old(open)
    {
      var n := quantity + amount;
      if n < 1 {
        quantity := 1;
      } else if n > product.stock {
        quantity := product.stock;
      } else {
        quantity := n;
      }
    }

    /** The add button: the current quantity goes to the cart and the dialog closes. */
    method AddToCart() returns (request: ProductCard.AddRequest)
      requires !ProductCard.OutOfStock(product)
      modifies this
      ensures request == ProductCard.AddRequest(product, old(quantity))
      ensures !open && quantity == old(quantity)
    {
      request := ProductCard.AddRequest(product, quantity);
      open := false;
    }
  }
}

/** The customer's order history (pages/OrdersHistoryPage.tsx): the empty
    view, the one expanded order, the cancellation link offered only while
    an order is being prepared, and the lines of an expanded order. */
module OrdersHistory {
  import opened Types
  import OrdersView

  /** What the page shows. */
  datatype View = NoOrders | OrderTable(orders: seq<Order>)

  /** No orders gives the empty view; otherwise every order has a row, in
      the order given. */
  function Render(orders: seq<Order>): (v: View)
    ensures v.NoOrders? <==> |orders| == 0
    ensures v.OrderTable? ==> v.orders == orders
  {
    if |orders| == 0 then NoOrders else OrderTable(orders)
  }

  /** The history page's badge is the admin list's: an unknown status text
      falls back to the Processing badge. */
  lemma UnknownStatusBadge(statusText: string)
    requires forall s :: statusText != StatusText(s)
    ensures OrdersView.BadgeFor(statusText) == OrdersView.Badge("قيد التجهيز", "bg-yellow-100 text-yellow-800")
  {
  }

  // --- Details toggle ---

  /** The details button of order `id`: on the expanded order it collapses
      it, on any other order it expands that one instead. */
  function Toggled(expanded: Option<string>, id: string): (r: Option<string>)
    ensures r.None? <==> expanded == Some(id)
    ensures r.Some? ==> r.value == id
  {
    if expanded == Some(id) then None else Some(id)
  }

  /** Pressing the same button twice from a collapsed page, or from that
      order expanded, comes back to where it started. */
  lemma ToggleTwice(expanded: Option<string>, id: string)
    requires expanded == None || expanded == Some(id)
    ensures Toggled(Toggled(expanded, id), id) == expanded
  {
  }

  /** Whether the row of `o` is followed by its details. */
  predicate IsExpanded(expanded: Option<string>, o: Order)
  {
    expanded == Some(o.id)
  }

  /** Every expanded row belongs to one order id, so orders with distinct ids
      are never expanded together. */
  lemma AtMostOneExpanded(expanded: Option<string>, a: Order, b: Order)
    requires IsExpanded(expanded, a) && IsExpanded(expanded, b)
    ensures a.id == b.id
  {
  }

  /** The page's one piece of state. */
  class HistoryPage {
    var expanded: Option<string>

    constructor()
      ensures expanded == None
    {
      expanded := None;
    }

    method ToggleDetails(id: string)
      modifies this
      ensures expanded == Toggled(old(expanded), id)
      ensures expanded.Some? ==> expanded.value == id
    {
      expanded := if expanded == Some(id) then None else Some(id);
    }
  }

  // --- Cancellation ---

  /** Only an order being prepared offers the cancel link. */
  predicate CanCancel(o: Order)
  {
    o.status == Processing
  }

  /** The cancel link asks to cancel its own order. */
  function CancelRequest(o: Order): (r: Option<string>)
    ensures r.Some? <==> o.status == Processing
    ensures r.Some? ==> r.value == o.id
  {
    if CanCancel(o) then Some(o.id) else None
  }

  /** Shipped, delivered and cancelled orders can never be cancelled here. */
  lemma NoCancelAfterProcessing(o: Order)
    requires o.status in {Shipped, Delivered, Cancelled}
    ensures CancelRequest(o) == None
  {
  }

  // --- Order lines ---

  /** One line of an expanded order: its quantity, and the catalogue
      product's name, price and first image when the product still exists. */
  datatype Line = Line(quantity: int, name: Option<string>, price: Option<real>, imageUrl: Option<string>)

  function LineOf(item: CartItem, products: seq<Product>): (l: Line)
    ensures l.quantity == item.quantity
    ensures l.name.Some? <==> FindProduct(products, item.productId).Some?
    ensures l.price.Some? <==> l.name.Some?
    ensures l.name.None? ==> l == Line(item.quantity, None, None, None)
    ensures l.name.Some? ==>
              var p := FindProduct(products, item.productId).value;
              p in products && p.id == item.productId
              && l == Line(item.quantity, Some(p.nameAr), Some(p.price),
                           if |p.images| > 0 then Some(p.images[0].url) else None)
  {
    var p := FindProduct(products, item.productId);
    if p.None? then Line(item.quantity, None, None, None)
    else
      var url := if |p.value.images| > 0 then Some(p.value.images[0].url) else None;
      Line(item.quantity, Some(p.value.nameAr), Some(p.value.price), url)
  }

  /** An expanded order lists one line per item, in order, whether or not
      the product is still in the catalogue. */
  function OrderLines(o: Order, products: seq<Product>): (r: seq<Line>)
    ensures |r| == |o.items|
    ensures forall k :: 0 <= k < |r| ==> r[k] == LineOf(o.items[k], products)
  {
    seq(|o.items|, k requires 0 <= k < |o.items| => LineOf(o.items[k], products))
  }

  /** A product that left the catalogue still leaves its line, with its
      quantity and nothing else. */
  lemma MissingProductLine(o: Order, products: seq<Product>, k: int)
    requires 0 <= k < |o.items|
    requires forall p :: p in products ==> p.id != o.items[k].productId
    ensures OrderLines(o, products)[k] == Line(o.items[k].quantity, None, None, None)
  {
  }
}

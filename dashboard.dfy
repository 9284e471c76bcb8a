/** The admin dashboard's aggregates (DashboardView.tsx): revenue and the
    completed-order count over delivered orders, the best sellers by
    delivered quantity, and the products running low on stock. */
module Dashboard {
  import opened Types
  import opened Seqs
  import CartStore

  predicate IsDelivered(o: Order)
  {
    o.status.Delivered?
  }

  // --- Revenue and completed orders ---

  /** `reduce((sum, o) => sum + o.total, 0)`, folding from the left. */
  function SumTotals(os: seq<Order>): real
    decreases |os|
  {
    if os == [] then 0.0 else SumTotals(os[..|os| - 1]) + os[|os| - 1].total
  }

  /** The revenue card: the totals of the delivered orders only. */
  function TotalRevenue(orders: seq<Order>): real
  {
    SumTotals(Filter(orders, IsDelivered))
  }

  /** A new order adds its total to the revenue when it is delivered and
      nothing otherwise; with the empty list this pins the revenue down. */
  lemma {:induction false} RevenueAppend(orders: seq<Order>, o: Order)
    ensures TotalRevenue([]) == 0.0
    ensures TotalRevenue(orders + [o]) == TotalRevenue(orders) + (if IsDelivered(o) then o.total else 0.0)
  {
    FilterConcat(orders, [o], IsDelivered);
    var d := Filter(orders, IsDelivered);
    if IsDelivered(o) {
      assert Filter([o], IsDelivered) == [o];
      assert (d + [o])[..|d + [o]| - 1] == d;
    } else {
      assert Filter([o], IsDelivered) == [];
      assert d + [] == d;
    }
  }

  /** The completed-orders card. */
  function CompletedCount(orders: seq<Order>): (n: nat)
    ensures n <= |orders|
  {
    |Filter(orders, IsDelivered)|
  }

  /** The count goes up by one exactly for a delivered order. */
  lemma {:induction false} CompletedCountAppend(orders: seq<Order>, o: Order)
    ensures CompletedCount([]) == 0
    ensures CompletedCount(orders + [o]) == CompletedCount(orders) + (if IsDelivered(o) then 1 else 0)
  {
    FilterConcat(orders, [o], IsDelivered);
    if IsDelivered(o) {
      assert Filter([o], IsDelivered) == [o];
    } else {
      assert Filter([o], IsDelivered) == [];
    }
  }

  // --- Units sold per product ---

  /** The `productSales` Map after the loops, as (product id, quantity)
      entries in insertion order: every line of every delivered order adds
      its quantity under its product id. */
  function Tally(orders: seq<Order>): seq<CartItem>
    decreases |orders|
  {
    if orders == [] then []
    else
      var n := |orders| - 1;
      var acc := Tally(orders[..n]);
      if IsDelivered(orders[n]) then CartStore.AddAll(acc, orders[n].items) else acc
  }

  /** Units of a product sold: its quantities summed over delivered orders. */
  function Sold(orders: seq<Order>, id: string): int
    decreases |orders|
  {
    if orders == [] then 0
    else
      var n := |orders| - 1;
      Sold(orders[..n], id) + (if IsDelivered(orders[n]) then CartStore.GuestTotal(orders[n].items, id) else 0)
  }

  /** The tally holds each sold product once, under the units sold. */
  lemma {:induction false} TallyCounts(orders: seq<Order>, id: string)
    ensures CartStore.UniqueIds(Tally(orders))
    ensures CartStore.Get(Tally(orders), id) == Sold(orders, id)
    decreases |orders|
  {
    if orders != [] {
      var n := |orders| - 1;
      TallyCounts(orders[..n], id);
      if IsDelivered(orders[n]) {
        CartStore.AddAllKeys(Tally(orders[..n]), orders[n].items);
        CartStore.AddAllSums(Tally(orders[..n]), orders[n].items, id);
      }
    }
  }

  lemma TallyStep(orders: seq<Order>, i: int)
    requires 0 <= i < |orders|
    ensures Tally(orders[..i + 1]) == if IsDelivered(orders[i]) then CartStore.AddAll(Tally(orders[..i]), orders[i].items)
                                     else Tally(orders[..i])
  {
    assert orders[..i + 1][..i] == orders[..i];
  }

  /** The inner `forEach` over one delivered order's lines: each adds its
      quantity to what the Map holds for its product id. */
  method AddOrderItems(start: seq<CartItem>, items: seq<CartItem>) returns (tally: seq<CartItem>)
    ensures tally == CartStore.AddAll(start, items)
  {
    tally := start;
    var j := 0;
    while j < |items|
      invariant 0 <= j <= |items|
      invariant tally == CartStore.AddAll(start, items[..j])
    {
      var item := items[j];
      var next := CartStore.Put(tally, item.productId, CartStore.Get(tally, item.productId) + item.quantity);
      CartStore.MergeStep(start, items, j, tally, next);
      tally := next;
      j := j + 1;
    }
    assert items[..j] == items;
  }

  /** The outer `forEach` over the orders that fills the Map. */
  method SalesTally(orders: seq<Order>) returns (tally: seq<CartItem>)
    ensures tally == Tally(orders)
  {
    tally := [];
    var i := 0;
    while i < |orders|
      invariant 0 <= i <= |orders|
      invariant tally == Tally(orders[..i])
    {
      var order := orders[i];
      if order.status == Delivered {
        tally := AddOrderItems(tally, order.items);
      }
      TallyStep(orders, i);
      i := i + 1;
    }
    assert orders[..i] == orders;
  }

  // --- Best sellers ---

  /** The comparator `b[1] - a[1]`: `a` may stay before `b` when it sold at least as much. */
  predicate MoreSold(a: CartItem, b: CartItem)
  {
    a.quantity >= b.quantity
  }

  datatype Seller = Seller(product: Product, quantity: int)

  ghost predicate Descending(s: seq<CartItem>)
  {
    forall i, j :: 0 <= i < j < |s| ==> s[i].quantity >= s[j].quantity
  }

  lemma {:induction false} SortedDescending(s: seq<CartItem>)
    requires SortedBy(s, MoreSold)
    ensures Descending(s)
    decreases |s|
  {
    if |s| > 1 {
      var t := s[1..];
      SortedDescending(t);
      assert MoreSold(s[0], s[1]);
      forall i, j | 0 <= i < j < |s| ensures s[i].quantity >= s[j].quantity {
        assert s[j] == t[j - 1];
        if i > 0 {
          assert s[i] == t[i - 1];
        } else if j > 1 {
          assert t[0].quantity >= t[j - 1].quantity;
        }
      }
    }
  }

  /** `map(([id, q]) => ({ product: products.find(...), quantity: q }))`
      followed by `filter(item => item.product)`: entries whose product is
      missing are dropped, the others keep their order. */
  function Found(products: seq<Product>, top: seq<CartItem>): (r: seq<Seller>)
    ensures |r| <= |top|
    decreases |top|
  {
    if top == [] then []
    else
      var rest := Found(products, top[1..]);
      match FindProduct(products, top[0].productId)
      case Some(p) => [Seller(p, top[0].quantity)] + rest
      case None => rest
  }

  /** A seller is listed exactly when some entry's product is in the
      catalogue, with that entry's units. */
  lemma {:induction false} FoundMembers(products: seq<Product>, top: seq<CartItem>)
    ensures forall s :: s in Found(products, top) <==>
              exists e :: e in top && FindProduct(products, e.productId) == Some(s.product) && s.quantity == e.quantity
    decreases |top|
  {
    if top != [] {
      FoundMembers(products, top[1..]);
      assert forall e :: e in top <==> e == top[0] || e in top[1..];
    }
  }

  /** A bound on every entry's units bounds every seller's units. */
  lemma {:induction false} FoundBelow(products: seq<Product>, top: seq<CartItem>, q: int)
    requires forall e :: e in top ==> e.quantity <= q
    ensures forall s :: s in Found(products, top) ==> s.quantity <= q
    decreases |top|
  {
    if top != [] {
      assert top[0] in top;
      assert forall e :: e in top[1..] ==> e in top;
      FoundBelow(products, top[1..], q);
    }
  }

  /** Sellers listed from the most units sold down. */
  ghost predicate SellersDescending(r: seq<Seller>)
  {
    forall i, j :: 0 <= i < j < |r| ==> r[i].quantity >= r[j].quantity
  }

  /** Entries sorted by units sold give sellers sorted by units sold. */
  lemma {:induction false} FoundDescending(products: seq<Product>, top: seq<CartItem>)
    requires Descending(top)
    ensures SellersDescending(Found(products, top))
    decreases |top|
  {
    if top != [] {
      DescendingTail(top);
      FoundDescending(products, top[1..]);
      var rest := Found(products, top[1..]);
      var p := FindProduct(products, top[0].productId);
      if p.Some? {
        var r := Found(products, top);
        assert r == [Seller(p.value, top[0].quantity)] + rest;
        FoundBelow(products, top[1..], top[0].quantity);
        forall i, j | 0 <= i < j < |r| ensures r[i].quantity >= r[j].quantity {
          assert r[j] == rest[j - 1];
          assert rest[j - 1] in rest;
          if i > 0 {
            assert r[i] == rest[i - 1];
          }
        }
      } else {
        assert Found(products, top) == rest;
      }
    }
  }

  /** Entries taken from the tally give catalogue products with the units
      they sold. */
  lemma {:induction false} FoundSold(products: seq<Product>, orders: seq<Order>, top: seq<CartItem>)
    requires forall e :: e in top ==> e in Tally(orders)
    ensures forall s :: s in Found(products, top) ==> s.product in products && s.quantity == Sold(orders, s.product.id)
    decreases |top|
  {
    if top != [] {
      assert top[0] in top;
      assert forall e :: e in top[1..] ==> e in top;
      FoundSold(products, orders, top[1..]);
      var p := FindProduct(products, top[0].productId);
      if p.Some? {
        TallyEntry(orders, top[0]);
      }
    }
  }

  /** The tail of a descending list is descending and no larger than its head. */
  lemma DescendingTail(top: seq<CartItem>)
    requires top != []
    ensures Descending(top) ==> Descending(top[1..])
    ensures Descending(top) ==> forall e :: e in top[1..] ==> top[0].quantity >= e.quantity
  {
    if Descending(top) {
      forall i, j | 0 <= i < j < |top[1..]| ensures top[1..][i].quantity >= top[1..][j].quantity {
        assert top[1..][i] == top[i + 1] && top[1..][j] == top[j + 1];
      }
      forall e | e in top[1..] ensures top[0].quantity >= e.quantity {
        var k :| 0 <= k < |top[1..]| && top[1..][k] == e;
        assert top[k + 1] == e;
      }
    }
  }

  /** The best-seller list: the Map's entries sorted by units sold
      (stably), cut to five, then matched to the catalogue. */
  function BestSelling(products: seq<Product>, orders: seq<Order>): seq<Seller>
  {
    Found(products, Take(Sort(Tally(orders), MoreSold), 5))
  }

  /** An entry of a list with unique ids is what the list holds for its id. */
  lemma {:induction false} GetMember(m: seq<CartItem>, e: CartItem)
    requires CartStore.UniqueIds(m) && e in m
    ensures CartStore.Get(m, e.productId) == e.quantity
    decreases |m|
  {
    if m[0] != e {
      GetMember(m[1..], e);
      if m[0].productId == e.productId {
        IdsMember(m[1..], e);
      }
    }
  }

  lemma {:induction false} IdsMember(m: seq<CartItem>, e: CartItem)
    requires e in m
    ensures e.productId in CartStore.Ids(m)
    decreases |m|
  {
    if m[0] != e {
      IdsMember(m[1..], e);
    }
  }

  /** At most five best sellers, each a catalogue product with the units it
      sold, listed from the most sold down. */
  lemma BestSellingFacts(products: seq<Product>, orders: seq<Order>)
    ensures var r := BestSelling(products, orders);
            |r| <= 5
            && (forall i, j :: 0 <= i < j < |r| ==> r[i].quantity >= r[j].quantity)
            && (forall s :: s in r ==> s.product in products && s.quantity == Sold(orders, s.product.id))
  {
    var t := Tally(orders);
    var sorted := Sort(t, MoreSold);
    var top := Take(sorted, 5);
    assert Total(MoreSold);
    SortSorted(t, MoreSold);
    SortedDescending(sorted);
    assert Descending(top) by {
      forall i, j | 0 <= i < j < |top| ensures top[i].quantity >= top[j].quantity {
        assert top[i] == sorted[i] && top[j] == sorted[j];
      }
    }
    assert forall e :: e in top ==> e in t by {
      forall e | e in top ensures e in t {
        assert e in sorted;
        assert e in multiset(sorted);
      }
    }
    FoundSold(products, orders, top);
    FoundDescending(products, top);
    assert BestSelling(products, orders) == Found(products, top);
  }

  /** Whether an entry's product is in the catalogue. */
  function Listed(products: seq<Product>): CartItem -> bool
  {
    (e: CartItem) => FindProduct(products, e.productId).Some?
  }

  /** The lookup keeps exactly the entries whose product is found, in their
      order, each as that product with the entry's units. */
  lemma {:induction false} FoundListed(products: seq<Product>, top: seq<CartItem>)
    ensures |Found(products, top)| == |Filter(top, Listed(products))|
    ensures forall k :: 0 <= k < |Found(products, top)| ==>
              Some(Found(products, top)[k].product) == FindProduct(products, Filter(top, Listed(products))[k].productId)
              && Found(products, top)[k].quantity == Filter(top, Listed(products))[k].quantity
    decreases |top|
  {
    if top != [] {
      var f := Listed(products);
      FoundListed(products, top[1..]);
      var rest, tail := Found(products, top[1..]), Filter(top[1..], f);
      var r, fl := Found(products, top), Filter(top, f);
      var p := FindProduct(products, top[0].productId);
      if p.Some? {
        assert fl == [top[0]] + tail by {
          FilterStep(top, f);
        }
        assert r == [Seller(p.value, top[0].quantity)] + rest;
        forall k | 0 <= k < |r|
          ensures Some(r[k].product) == FindProduct(products, fl[k].productId) && r[k].quantity == fl[k].quantity
        {
          if k > 0 {
            assert r[k] == rest[k - 1] && fl[k] == tail[k - 1];
          }
        }
      } else {
        assert fl == tail by {
          FilterStep(top, f);
        }
        assert r == rest;
      }
    }
  }

  /** The best sellers are the five most-sold tally entries whose product is
      in the catalogue, in sorted order, each with its units; every tally
      entry left out of those five sold no more than any listed seller. */
  lemma BestSellingIsTopFive(products: seq<Product>, orders: seq<Order>)
    ensures var top := Take(Sort(Tally(orders), MoreSold), 5);
            var r := BestSelling(products, orders);
            var listed := Filter(top, Listed(products));
            |r| == |listed|
            && (forall k :: 0 <= k < |r| ==>
                  Some(r[k].product) == FindProduct(products, listed[k].productId) && r[k].quantity == listed[k].quantity)
            && (forall e, s :: e in Tally(orders) && e !in top && s in r ==> e.quantity <= s.quantity)
  {
    var t := Tally(orders);
    var sorted := Sort(t, MoreSold);
    assert Descending(sorted) by {
      assert Total(MoreSold);
      SortSorted(t, MoreSold);
      SortedDescending(sorted);
    }
    FoundListed(products, Take(sorted, 5));
    OutsideTopSoldNoMore(products, t, sorted, 5);
  }

  /** Cutting a descending permutation of `t` after `n` entries leaves out
      only entries that sold no more than any seller found among the first `n`. */
  lemma OutsideTopSoldNoMore(products: seq<Product>, t: seq<CartItem>, sorted: seq<CartItem>, n: nat)
    requires Descending(sorted) && multiset(sorted) == multiset(t)
    ensures forall e, s :: e in t && e !in Take(sorted, n) && s in Found(products, Take(sorted, n)) ==> e.quantity <= s.quantity
  {
    var top := Take(sorted, n);
    FoundMembers(products, top);
    forall e, s | e in t && e !in top && s in Found(products, top) ensures e.quantity <= s.quantity {
      assert e in multiset(t);
      assert e in sorted;
      var k :| 0 <= k < |sorted| && sorted[k] == e;
      assert k >= |top|;
      var e' :| e' in top && FindProduct(products, e'.productId) == Some(s.product) && s.quantity == e'.quantity;
      var j :| 0 <= j < |top| && top[j] == e';
      assert top[j] == sorted[j];
    }
  }

  /** An entry of the tally carries the units its product sold. */
  lemma TallyEntry(orders: seq<Order>, e: CartItem)
    requires e in Tally(orders)
    ensures e.quantity == Sold(orders, e.productId)
  {
    TallyCounts(orders, e.productId);
    GetMember(Tally(orders), e);
  }

  // --- Low stock ---

  /** `p.stock > 0 && p.stock < 10`. */
  predicate LowOnStock(p: Product)
  {
    0 < p.stock < 10
  }

  /** The comparator `a.stock - b.stock`. */
  predicate FewerInStock(a: Product, b: Product)
  {
    a.stock <= b.stock
  }

  function LowStock(products: seq<Product>): seq<Product>
  {
    Sort(Filter(products, LowOnStock), FewerInStock)
  }

  /** Exactly the products with 0 < stock < 10, each once per catalogue
      entry, from the lowest stock up. */
  lemma LowStockExact(products: seq<Product>)
    ensures forall p :: p in LowStock(products) <==> p in products && 0 < p.stock < 10
    ensures multiset(LowStock(products)) == multiset(Filter(products, LowOnStock))
    ensures forall i :: 0 < i < |LowStock(products)| ==> LowStock(products)[i - 1].stock <= LowStock(products)[i].stock
  {
    var f := Filter(products, LowOnStock);
    assert Total(FewerInStock);
    SortSorted(f, FewerInStock);
    forall p ensures p in LowStock(products) <==> p in f {
      assert p in LowStock(products) <==> p in multiset(LowStock(products));
      assert p in f <==> p in multiset(f);
    }
  }
}

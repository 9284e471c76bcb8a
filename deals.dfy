/** The deals page (DealsPage.tsx): the products on sale, the banner's best
    deal (pinned by the site content or the deepest discount), and the
    banner's rounded discount percentage. */
module Deals {
  import opened Types
  import opened Seqs

  /** `p => p.originalPrice`: a product is on deal when it carries a
      non-zero original price. */
  predicate OnDeal(p: Product)
  {
    NumberTruthy(p.originalPrice)
  }

  /** The grid of deal products, in catalogue order. */
  function DealProducts(products: seq<Product>): (r: seq<Product>)
    ensures forall p :: p in r <==> p in products && OnDeal(p)
    ensures forall i :: 0 <= i < |r| ==> OnDeal(r[i])
    ensures Subsequence(r, products)
  {
    FilterIsSubsequence(products, OnDeal);
    Filter(products, OnDeal)
  }

  /** The fraction of the original price taken off; zero for a product
      without an original price, as the reducer's `bestDiscount` reads it. */
  function Ratio(p: Product): real
  {
    if OnDeal(p) then (p.originalPrice.value - p.price) / p.originalPrice.value else 0.0
  }

  /** One step of the reducer: a product off deal is skipped, and a product
      replaces the best so far only when its discount is strictly larger. */
  function Step(best: Product, current: Product): (r: Product)
    ensures r == best || r == current
    ensures OnDeal(current) ==> Ratio(r) >= Ratio(current) && Ratio(r) >= Ratio(best)
    ensures r == current && r != best ==> Ratio(current) > Ratio(best)
  {
    if !OnDeal(current) then best
    else if Ratio(current) > Ratio(best) then current
    else best
  }

  /** `reduce` from the left, starting from `best`. */
  function Reduce(best: Product, rest: seq<Product>): Product
    decreases |rest|
  {
    if rest == [] then best else Reduce(Step(best, rest[0]), rest[1..])
  }

  /** `s[k]` has the largest discount among the first `n` products and every
      earlier one has a strictly smaller discount: the first of the best. */
  ghost predicate FirstBest(s: seq<Product>, n: int, k: int)
    requires 0 <= n <= |s|
  {
    0 <= k < n
    && (forall j :: 0 <= j < n ==> Ratio(s[j]) <= Ratio(s[k]))
    && (forall j :: 0 <= j < k ==> Ratio(s[j]) < Ratio(s[k]))
  }

  /** Reducing the rest of a list of deals from the first best of its prefix
      ends on the first best of the whole list. */
  lemma {:induction false} ReduceFinds(s: seq<Product>, b: int, i: int)
    requires forall j :: 0 <= j < |s| ==> OnDeal(s[j])
    requires 0 <= b < i <= |s|
    requires FirstBest(s, i, b)
    ensures exists k :: FirstBest(s, |s|, k) && Reduce(s[b], s[i..]) == s[k]
    decreases |s| - i
  {
    if i == |s| {
      assert Reduce(s[b], s[i..]) == s[b];
    } else {
      assert s[i..][1..] == s[i + 1..];
      if Ratio(s[i]) > Ratio(s[b]) {
        assert Step(s[b], s[i]) == s[i];
        ReduceFinds(s, i, i + 1);
      } else {
        assert Step(s[b], s[i]) == s[b];
        ReduceFinds(s, b, i + 1);
      }
    }
  }

  /** The banner's product: the pinned product when the pin names a catalogue
      product that is on deal, otherwise the deal with the deepest discount
      (the first one on a tie), and none when nothing is on deal. */
  function BestDeal(products: seq<Product>, pinned: Option<string>): (r: Option<Product>)
    ensures r.None? <==> forall p :: p in products ==> !OnDeal(p)
    ensures r.Some? ==> r.value in products && OnDeal(r.value)
  {
    var pin := if TextTruthy(pinned) then FindProduct(products, pinned.value) else None;
    if pin.Some? && OnDeal(pin.value) then pin
    else
      var deals := DealProducts(products);
      if deals == [] then None
      else
        BestDealIsFirstBest(deals);
        Some(Reduce(deals[0], deals))
  }

  /** Over a non-empty list of deals, the reducer seeded with the first one
      returns the first deal of the largest discount. */
  lemma BestDealIsFirstBest(deals: seq<Product>)
    requires deals != [] && forall j :: 0 <= j < |deals| ==> OnDeal(deals[j])
    ensures exists k :: FirstBest(deals, |deals|, k) && Reduce(deals[0], deals) == deals[k]
  {
    assert Step(deals[0], deals[0]) == deals[0];
    assert deals[1..] == deals[0..][1..];
    ReduceFinds(deals, 0, 1);
  }

  /** The choice the banner makes: a usable pin wins; otherwise the result is
      the first deal whose discount no other deal exceeds. */
  lemma BestDealChoice(products: seq<Product>, pinned: Option<string>)
    ensures var pin := if TextTruthy(pinned) then FindProduct(products, pinned.value) else None;
            var deals := DealProducts(products);
            var r := BestDeal(products, pinned);
            (pin.Some? && OnDeal(pin.value) ==> r == pin && r.value.id == pinned.value)
            && (!(pin.Some? && OnDeal(pin.value)) && r.Some? ==>
                  exists k :: FirstBest(deals, |deals|, k) && r.value == deals[k])
  {
    var deals := DealProducts(products);
    if deals != [] {
      BestDealIsFirstBest(deals);
    }
  }

  /** `Math.round`: the nearest integer, halves rounded up. */
  function Round(x: real): (r: int)
    ensures r as real - 0.5 <= x < r as real + 0.5
  {
    (x + 0.5).Floor
  }

  /** The banner's discount badge: the percentage taken off, rounded, or 0
      without an original price. */
  function DiscountPercent(p: Product): int
  {
    if OnDeal(p) then Round(Ratio(p) * 100.0) else 0
  }

  /** A sale price between zero and a positive original price gives a badge
      between 0 and 100; no original price gives 0. */
  lemma DiscountPercentBounds(p: Product)
    ensures !OnDeal(p) ==> DiscountPercent(p) == 0
    ensures OnDeal(p) && 0.0 <= p.price <= p.originalPrice.value ==> 0 <= DiscountPercent(p) <= 100
    ensures OnDeal(p) && p.price == p.originalPrice.value ==> DiscountPercent(p) == 0
  {
    if OnDeal(p) && 0.0 <= p.price <= p.originalPrice.value {
      var o := p.originalPrice.value;
      assert 0.0 <= (o - p.price) / o <= 1.0;
    }
  }
}

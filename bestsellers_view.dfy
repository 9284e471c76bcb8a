/** The admin's bestseller screen (components/admin/BestsellersView.tsx):
    the split of the catalogue into bestsellers and the rest, the default
    choice of the product to add, and the add and remove actions. */
module BestsellersView {
  import opened Types
  import opened Seqs

  predicate IsBestseller(p: Product)
  {
    p.isBestseller
  }

  predicate NotBestseller(p: Product)
  {
    !p.isBestseller
  }

  /** The `forEach` that pushes each product onto one of two lists. */
  method Partition(products: seq<Product>) returns (bestsellers: seq<Product>, others: seq<Product>)
    ensures bestsellers == Filter(products, IsBestseller)
    ensures others == Filter(products, NotBestseller)
  {
    bestsellers, others := [], [];
    var i := 0;
    while i < |products|
      invariant 0 <= i <= |products|
      invariant bestsellers == Filter(products[..i], IsBestseller)
      invariant others == Filter(products[..i], NotBestseller)
    {
      var p := products[i];
      assert products[..i + 1] == products[..i] + [p];
      FilterSnoc(products[..i], p, IsBestseller);
      FilterSnoc(products[..i], p, NotBestseller);
      if p.isBestseller {
        bestsellers := bestsellers + [p];
      } else {
        others := others + [p];
      }
      i := i + 1;
    }
    assert products[..i] == products;
  }

  /** Every catalogue product lands on exactly one of the two lists, as
      often as the catalogue holds it. */
  lemma {:induction false} PartitionCounts(products: seq<Product>)
    ensures multiset(Filter(products, IsBestseller)) + multiset(Filter(products, NotBestseller)) == multiset(products)
    decreases |products|
  {
    if products != [] {
      var p, rest := products[0], products[1..];
      PartitionCounts(rest);
      assert products == [p] + rest;
      if p.isBestseller {
        assert Filter(products, IsBestseller) == [p] + Filter(rest, IsBestseller);
        assert Filter(products, NotBestseller) == Filter(rest, NotBestseller);
      } else {
        assert Filter(products, IsBestseller) == Filter(rest, IsBestseller);
        assert Filter(products, NotBestseller) == [p] + Filter(rest, NotBestseller);
      }
    }
  }

  /** The two lists keep catalogue order and split it by the flag. */
  lemma PartitionCovers(products: seq<Product>)
    ensures multiset(Filter(products, IsBestseller)) + multiset(Filter(products, NotBestseller)) == multiset(products)
    ensures Subsequence(Filter(products, IsBestseller), products) && Subsequence(Filter(products, NotBestseller), products)
    ensures forall p :: p in products ==> (p in Filter(products, IsBestseller) <==> p.isBestseller)
    ensures forall p :: p in products ==> (p in Filter(products, NotBestseller) <==> !p.isBestseller)
  {
    PartitionCounts(products);
    FilterIsSubsequence(products, IsBestseller);
    FilterIsSubsequence(products, NotBestseller);
  }

  /** The effect on the non-bestsellers: the first one is preselected, or
      nothing when there is none. */
  function DefaultChoice(others: seq<Product>): (id: string)
    ensures |others| > 0 ==> id == others[0].id
    ensures |others| == 0 ==> id == ""
  {
    if |others| > 0 then others[0].id else ""
  }

  /** `handleAddBestseller`: with a choice that names a product, that product
      is saved flagged as a bestseller; nothing happens otherwise. */
  function AddBestseller(products: seq<Product>, chosen: string): (r: Option<Product>)
    ensures r.Some? <==> chosen != "" && FindProduct(products, chosen).Some?
    ensures r.Some? ==> r.value == FindProduct(products, chosen).value.(isBestseller := true)
  {
    if chosen == "" then None
    else
      var p := FindProduct(products, chosen);
      if p.Some? then Some(p.value.(isBestseller := true)) else None
  }

  /** `handleRemoveBestseller`: the product is saved without the flag; an
      unknown id does nothing. */
  function RemoveBestseller(products: seq<Product>, id: string): (r: Option<Product>)
    ensures r.Some? <==> FindProduct(products, id).Some?
    ensures r.Some? ==> r.value == FindProduct(products, id).value.(isBestseller := false)
  {
    var p := FindProduct(products, id);
    if p.Some? then Some(p.value.(isBestseller := false)) else None
  }

  /** Adding then removing gives back the product with only its flag
      cleared; an added product is a catalogue product with that id. */
  lemma AddThenRemove(products: seq<Product>, chosen: string)
    ensures var a := AddBestseller(products, chosen);
            a.Some? ==> a.value.id == chosen && a.value.isBestseller
                        && a.value.(isBestseller := false) == RemoveBestseller(products, chosen).value
                        && a.value.(isBestseller := FindProduct(products, chosen).value.isBestseller) in products
  {
    var a := AddBestseller(products, chosen);
    if a.Some? {
      var p := FindProduct(products, chosen).value;
      assert a.value.(isBestseller := p.isBestseller) == p;
    }
  }
}

/** Two catalogue selectors shown as product grids: the related products
    under a product page (components/RelatedProducts.tsx) and the wishlist
    page (pages/WishlistPage.tsx). */
module Related {
  import opened Types
  import opened Seqs

  // --- Related products ---

  /** The most related products shown. */
  const MaxRelated: nat := 8

  /** Same main category, not the current product. */
  function RelatedTo(current: Product): Product -> bool
  {
    (p: Product) => p.subCategory.mainCategoryId == current.subCategory.mainCategoryId && p.id != current.id
  }

  /** `relatedProducts`: with no current product, nothing; otherwise the
      first eight catalogue products of the same main category other than
      the current one, in catalogue order. */
  function RelatedProducts(current: Option<Product>, all: seq<Product>): (r: seq<Product>)
    ensures current.None? ==> r == []
    ensures |r| <= MaxRelated
    ensures Subsequence(r, all)
    ensures current.Some? ==> forall p :: p in r ==>
              p.subCategory.mainCategoryId == current.value.subCategory.mainCategoryId && p.id != current.value.id
    ensures current.Some? && |r| < MaxRelated ==> forall p :: p in all && RelatedTo(current.value)(p) ==> p in r
  {
    if current.None? then []
    else
      var matching := Filter(all, RelatedTo(current.value));
      var r := Take(matching, MaxRelated);
      FilterIsSubsequence(all, RelatedTo(current.value));
      PrefixIsSubsequence(r, matching);
      SubsequenceTrans(r, matching, all);
      assert forall p :: p in r ==> p in matching by {
        forall p | p in r ensures p in matching {
          var k :| 0 <= k < |r| && r[k] == p;
          assert matching[k] == p;
        }
      }
      r
  }

  /** The current product is never its own related product, even when the
      catalogue holds a copy of it under the same id. */
  lemma NeverSelf(current: Product, all: seq<Product>)
    ensures forall p :: p in RelatedProducts(Some(current), all) ==> p.id != current.id
  {
  }

  /** An empty selection renders nothing at all. */
  function RelatedSection(current: Option<Product>, all: seq<Product>): (r: Option<seq<Product>>)
    ensures r.None? <==> RelatedProducts(current, all) == []
    ensures r.Some? ==> r.value == RelatedProducts(current, all) && |r.value| > 0
  {
    var related := RelatedProducts(current, all);
    if |related| == 0 then None else Some(related)
  }

  // --- Wishlist page ---

  function Wished(wishlist: seq<string>): Product -> bool
  {
    (p: Product) => p.id in wishlist
  }

  /** `wishlistProducts`: the catalogue products whose id is wished for, in
      catalogue order. */
  function WishlistProducts(wishlist: seq<string>, all: seq<Product>): (r: seq<Product>)
    ensures forall p :: p in r <==> p in all && p.id in wishlist
    ensures Subsequence(r, all)
    ensures |r| <= |all|
  {
    FilterIsSubsequence(all, Wished(wishlist));
    Filter(all, Wished(wishlist))
  }

  /** Only which ids are wished for matters: the wishlist's order, repeated
      ids and ids missing from the catalogue change nothing. */
  lemma WishlistOrderIrrelevant(w1: seq<string>, w2: seq<string>, all: seq<Product>)
    requires forall id :: id in w1 <==> id in w2
    ensures WishlistProducts(w1, all) == WishlistProducts(w2, all)
  {
    FilterExt(all, Wished(w1), Wished(w2));
  }

  /** So a repeated id shows its product once, and an id the catalogue does
      not have shows nothing. */
  lemma WishlistRepeatsAndStrays(wishlist: seq<string>, id: string, all: seq<Product>)
    ensures id in wishlist ==> WishlistProducts(wishlist + [id], all) == WishlistProducts(wishlist, all)
    ensures (forall p :: p in all ==> p.id != id) ==> WishlistProducts(wishlist + [id], all) == WishlistProducts(wishlist, all)
  {
    if id in wishlist {
      WishlistOrderIrrelevant(wishlist + [id], wishlist, all);
    } else if forall p :: p in all ==> p.id != id {
      FilterExt(all, Wished(wishlist + [id]), Wished(wishlist));
    }
  }

  /** Each card on the page: the product, always marked as wished for. */
  datatype WishCard = WishCard(product: Product, inWishlist: bool)

  /** No wished-for product gives the empty view; otherwise one card per
      product, each marked as in the wishlist. */
  function WishlistPage(wishlist: seq<string>, all: seq<Product>): (r: Option<seq<WishCard>>)
    ensures r.None? <==> forall p :: p in all ==> p.id !in wishlist
    ensures r.Some? ==> |r.value| == |WishlistProducts(wishlist, all)|
    ensures r.Some? ==> forall k :: 0 <= k < |r.value| ==>
              r.value[k].inWishlist && r.value[k].product.id in wishlist && r.value[k].product in all
  {
    var shown := WishlistProducts(wishlist, all);
    if |shown| == 0 then None
    else Some(seq(|shown|, k requires 0 <= k < |shown| => WishCard(shown[k], true)))
  }
}

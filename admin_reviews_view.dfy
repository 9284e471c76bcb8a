/** The admin's review list (components/admin/ReviewsView.tsx): the rating
    filter, the product name fallback and the star row. */
module ReviewsView {
  import opened Types
  import opened Seqs
  import ProductDetail
  import ProductCard

  /** The rating picker's values: all, then 5 down to 1. */
  const RatingOptions: seq<int> := [0, 5, 4, 3, 2, 1]

  function Shown(rating: int): Review -> bool
  {
    (r: Review) => rating == 0 || r.rating == rating
  }

  /** `filteredReviews`: 0 keeps every review, any other value exactly the
      reviews of that rating, in order. */
  function Filtered(reviews: seq<Review>, rating: int): (r: seq<Review>)
    ensures rating == 0 ==> r == reviews
    ensures rating != 0 ==> forall x :: x in r <==> x in reviews && x.rating == rating
    ensures Subsequence(r, reviews)
  {
    FilterIsSubsequence(reviews, Shown(rating));
    var r := Filter(reviews, Shown(rating));
    assert rating == 0 ==> r == reviews by {
      if rating == 0 {
        FilterAll(reviews, Shown(rating));
      }
    }
    r
  }

  const UnknownProduct: string := "منتج غير معروف"

  /** `product?.nameAr || 'منتج غير معروف'`. */
  function ProductLabel(products: seq<Product>, productId: string): (name: string)
    ensures FindProduct(products, productId).None? ==> name == UnknownProduct
    ensures FindProduct(products, productId).Some? && FindProduct(products, productId).value.nameAr != "" ==>
              name == FindProduct(products, productId).value.nameAr
    ensures name != ""
  {
    var p := FindProduct(products, productId);
    if p.Some? && p.value.nameAr != "" then p.value.nameAr else UnknownProduct
  }

  /** Star `i` of 0..4 is filled when `i < rating`. */
  function Stars(rating: int): (r: seq<bool>)
    ensures |r| == 5
  {
    seq(5, k => k < rating)
  }

  /** A rating from 0 to 5 fills exactly that many stars. */
  lemma StarsCount(rating: int)
    requires 0 <= rating <= 5
    ensures ProductCard.Filled(Stars(rating)) == rating
  {
    ProductCard.FilledFive(Stars(rating));
  }

  /** The row is the product page's star row for a whole-number average. */
  lemma StarsAsOnProductPage(rating: int)
    ensures Stars(rating) == ProductDetail.Stars(rating as real)
  {
  }

  /** `handleDelete`: the id goes to the delete action only when confirmed. */
  function DeleteRequest(reviewId: string, confirmed: bool): (r: Option<string>)
    ensures r.Some? <==> confirmed
    ensures r.Some? ==> r.value == reviewId
  {
    IfConfirmed(confirmed, reviewId)
  }
}

/** A product tile (components/ProductCard.tsx): the responsive image
    sources it derives from a picsum address, its stock flags, its star row
    and what its clicks request. */
module ProductCard {
  import opened Types
  import Text
  import Dashboard

  // --- Responsive image sources ---

  const Host: string := "picsum.photos"
  const Square: string := "/600/600"

  /** The address before the last `/600/600` of a picsum address, when the
      address has both marks and that prefix is not empty. */
  function SrcBase(url: string): (r: Option<string>)
    ensures r.Some? ==> Text.Includes(url, Host) && r.value != []
                        && Text.OccursAt(url, Square, |r.value|) && r.value == url[..|r.value|]
                        && forall j :: |r.value| < j ==> !Text.OccursAt(url, Square, j)
    ensures r.None? <==> !Text.Includes(url, Host) || !Text.Includes(url, Square) || Text.LastIndexOf(url, Square) == 0
  {
    if !Text.Includes(url, Host) || !Text.Includes(url, Square) then None
    else
      Text.IncludesIffOccurs(url, Square);
      var last := Text.LastIndexOf(url, Square);
      assert last >= 0;
      var base := Text.Substring(url, 0, last);
      if base == "" then None else Some(base)
  }

  /** One `srcset` candidate: the base resized to `size` squared, with its width. */
  function Candidate(base: string, size: string): string
  {
    base + "/" + size + "/" + size + " " + size + "w"
  }

  /** `generateSrcSet`: the 300, 600 and 900 pixel versions, in that order. */
  function SrcSet(url: string): (r: Option<string>)
    ensures r.None? <==> SrcBase(url).None?
  {
    var base := SrcBase(url);
    if base.None? then None
    else Some(Candidate(base.value, "300") + ", " + Candidate(base.value, "600") + ", " + Candidate(base.value, "900"))
  }

  /** A picsum address ending in `/600/600` after a non-empty base keeps
      that base. */
  lemma SrcBaseOfSquare(base: string)
    requires base != [] && Text.Includes(base + Square, Host)
    ensures SrcBase(base + Square) == Some(base)
  {
    var url := base + Square;
    assert url[|base|..|base| + |Square|] == Square;
    assert Text.OccursAt(url, Square, |base|);
    Text.IncludesIffOccurs(url, Square);
    assert Text.LastIndexOf(url, Square) == |base|;
    assert url[..|base|] == base;
  }

  /** So the 600-pixel candidate of such an address is the address itself. */
  lemma SrcSetOfSquare(base: string)
    requires base != [] && Text.Includes(base + Square, Host)
    ensures SrcSet(base + Square) == Some(Candidate(base, "300") + ", " + (base + Square) + " 600w, " + Candidate(base, "900"))
  {
    SrcBaseOfSquare(base);
    var c300 := Candidate(base, "300");
    var c900 := Candidate(base, "900");
    assert Candidate(base, "600") == (base + Square) + " 600w";
    assert c300 + ", " + Candidate(base, "600") + ", " + c900 == c300 + ", " + (base + Square) + " 600w, " + c900;
  }

  /** An address without the picsum host gets no candidates. */
  lemma SrcSetNeedsHost(url: string)
    requires !Text.Includes(url, Host)
    ensures SrcSet(url) == None
  {
  }

  // --- Stock flags ---

  /** `product.stock === 0`. */
  predicate OutOfStock(p: Product)
  {
    p.stock == 0
  }

  /** `!isOutOfStock && product.stock < 10`. */
  predicate LowStock(p: Product)
  {
    !OutOfStock(p) && p.stock < 10
  }

  /** Over a non-negative stock the card's low-stock badge is the
      dashboard's low-stock rule, and the two flags never both hold. */
  lemma StockFlags(p: Product)
    ensures !(OutOfStock(p) && LowStock(p))
    ensures p.stock >= 0 ==> (LowStock(p) <==> Dashboard.LowOnStock(p))
    ensures p.stock >= 0 ==> (LowStock(p) <==> 0 < p.stock < 10)
  {
  }

  // --- Stars ---

  /** Star `i` of 1..5 is filled when `i <= average`. */
  function Stars(average: real): (r: seq<bool>)
    ensures |r| == 5
    ensures forall k :: 0 <= k < 5 ==> (r[k] <==> (k + 1) as real <= average)
  {
    seq(5, k => (k + 1) as real <= average)
  }

  /** `renderStars`: the `for` loop from 1 to 5 pushes one star per step. */
  method RenderStars(average: real) returns (stars: seq<bool>)
    ensures stars == Stars(average)
  {
    stars := [];
    var i := 1;
    while i <= 5
      invariant 1 <= i <= 6
      invariant stars == Stars(average)[..i - 1]
    {
      stars := stars + [i as real <= average];
      i := i + 1;
    }
  }

  /** The number of filled stars. */
  function Filled(s: seq<bool>): (n: nat)
    ensures n <= |s|
    decreases |s|
  {
    if s == [] then 0 else (if s[0] then 1 else 0) + Filled(s[1..])
  }

  lemma FilledFive(s: seq<bool>)
    requires |s| == 5
    ensures Filled(s) == (if s[0] then 1 else 0) + (if s[1] then 1 else 0) + (if s[2] then 1 else 0)
                         + (if s[3] then 1 else 0) + (if s[4] then 1 else 0)
  {
    assert s[4..][0] == s[4] && s[4..][1..] == [];
    assert Filled(s[4..]) == (if s[4] then 1 else 0);
    assert s[3..][0] == s[3] && s[3..][1..] == s[4..];
    assert Filled(s[3..]) == (if s[3] then 1 else 0) + Filled(s[4..]);
    assert s[2..][0] == s[2] && s[2..][1..] == s[3..];
    assert Filled(s[2..]) == (if s[2] then 1 else 0) + Filled(s[3..]);
    assert s[1..][0] == s[1] && s[1..][1..] == s[2..];
    assert Filled(s[1..]) == (if s[1] then 1 else 0) + Filled(s[2..]);
  }

  /** The card fills as many stars as the whole part of the average, between
      0 and 5. */
  lemma StarsCount(average: real)
    ensures Filled(Stars(average)) == if average < 1.0 then 0 else if average >= 5.0 then 5 else average.Floor
  {
    FilledFive(Stars(average));
  }

  // --- Clicks ---

  /** `onAddToCart(product, quantity)`. */
  datatype AddRequest = AddRequest(product: Product, quantity: int)

  /** Clicking the card selects the product unless it is out of stock. */
  function CardClick(p: Product): (r: Option<Product>)
    ensures r.Some? <==> !OutOfStock(p)
    ensures r.Some? ==> r.value == p
  {
    if OutOfStock(p) then None else Some(p)
  }

  /** The add button, shown only in stock, always asks for one unit. */
  function AddClick(p: Product): (r: Option<AddRequest>)
    ensures r.Some? <==> !OutOfStock(p)
    ensures r.Some? ==> r.value.product == p && r.value.quantity == 1
  {
    if OutOfStock(p) then None else Some(AddRequest(p, 1))
  }
}

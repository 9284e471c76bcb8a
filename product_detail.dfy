/** The product page (pages/ProductDetailPage.tsx): its quantity picker,
    the reset when another product is shown, the breadcrumb trail, the
    specification rows, the star row, and the guard on posting a review. */
module ProductDetail {
  import opened Types
  import ProductCard
  import QuickView

  /** `Math.max(1, Math.min(stock, prev + amount))`. */
  function Clamped(prev: int, amount: int, stock: int): (q: int)
    ensures q >= 1
    ensures stock >= 1 ==> q <= stock
    ensures 1 <= prev + amount <= stock ==> q == prev + amount
  {
    var m := if stock <= prev + amount then stock else prev + amount;
    if m >= 1 then m else 1
  }

  /** With something in stock the page's clamp and the dialog's agree on
      every press; at zero stock (where neither shows its buttons) the dialog
      would drop to 0 and the page would stay at 1. */
  lemma ClampsAgree(prev: int, amount: int, stock: int)
    ensures stock >= 1 ==> Clamped(prev, amount, stock) == QuickView.Clamped(prev, amount, stock)
    ensures stock == 0 && prev + amount >= 1 ==> Clamped(prev, amount, stock) == 1 && QuickView.Clamped(prev, amount, stock) == 0
  {
  }

  /** The first colour, when the product lists any. */
  function FirstColor(p: Product): (c: Option<string>)
    ensures c.Some? <==> p.colors.Some? && |p.colors.value| > 0
    ensures c.Some? ==> c.value == p.colors.value[0]
  {
    if p.colors.Some? && |p.colors.value| > 0 then Some(p.colors.value[0]) else None
  }

  /** `product.images?.[active] || product.images?.[0]`. */
  function ShownImage(images: seq<Image>, active: int): (r: Option<Image>)
    ensures r.Some? <==> |images| > 0
    ensures 0 <= active < |images| ==> r == Some(images[active])
    ensures !(0 <= active < |images|) && |images| > 0 ==> r == Some(images[0])
  {
    if 0 <= active < |images| then Some(images[active])
    else if |images| > 0 then Some(images[0])
    else None
  }

  /** The page's own state. */
  class DetailPage {
    var product: Product
    var activeImage: int
    var quantity: int
    var selectedColor: Option<string>

    predicate Valid()
      reads this
    {
      quantity >= 1
    }

    constructor(product: Product)
      ensures this.product == product && activeImage == 0 && quantity == 1
      ensures selectedColor == FirstColor(product) && Valid()
    {
      this.product := product;
      activeImage := 0;
      quantity := 1;
      selectedColor := FirstColor(product);
    }

    /** The effect on `[product]`: a new product starts over at its first
        image, one unit and its first colour. */
    method Show(p: Product)
      modifies this
      ensures product == p && activeImage == 0 && quantity == 1
      ensures selectedColor == FirstColor(p) && Valid()
    {
      product := p;
      activeImage := 0;
      quantity := 1;
      selectedColor := FirstColor(p);
    }

    /** The -/+ buttons, shown only while the stock is positive. */
    method ChangeQuantity(amount: int)
      requires Valid() && product.stock > 0
      modifies this
      ensures quantity == Clamped(old(quantity), amount, product.stock)
      ensures 1 <= quantity <= product.stock && Valid()
      ensures product == old(product) && activeImage == old(activeImage) && selectedColor == old(selectedColor)
    {
      var m := if product.stock <= quantity + amount then product.stock else quantity + amount;
      quantity := if m >= 1 then m else 1;
    }

    /** A thumbnail click. */
    method SelectImage(index: int)
      requires 0 <= index < |product.images|
      modifies this
      ensures product == old(product) && quantity == old(quantity) && selectedColor == old(selectedColor)
      ensures activeImage == index && ShownImage(product.images, activeImage) == Some(product.images[index])
    {
      activeImage := index;
    }

    /** A colour swatch click. */
    method SelectColor(color: string)
      requires product.colors.Some? && color in product.colors.value
      modifies this
      ensures selectedColor == Some(color)
      ensures product == old(product) && quantity == old(quantity) && activeImage == old(activeImage)
    {
      selectedColor := Some(color);
    }

    /** The add button sends the chosen quantity. */
    method AddToCart() returns (request: ProductCard.AddRequest)
      requires product.stock > 0
      ensures request == ProductCard.AddRequest(product, quantity)
    {
      request := ProductCard.AddRequest(product, quantity);
    }
  }

  // --- Breadcrumbs ---

  /** A crumb names a step and, when clickable, the page it opens. */
  datatype Crumb = Crumb(name: string, target: Option<Page>)

  const HomeCrumb := Crumb("الرئيسية", Some(Home))

  /** Home, then the main category (when the catalogue has it), then the
      sub-category, then the product; only the first two are links. */
  function Breadcrumbs(p: Product, categories: seq<Category>): (r: seq<Crumb>)
    ensures var main := FindCategory(categories, p.subCategory.mainCategoryId);
            |r| == (if main.Some? then 4 else 3)
            && r[0] == HomeCrumb
            && (main.Some? ==> r[1] == Crumb(main.value.nameAr, Some(Products)))
            && r[|r| - 2] == Crumb(p.subCategory.nameAr, None)
            && r[|r| - 1] == Crumb(p.nameAr, None)
  {
    var main := FindCategory(categories, p.subCategory.mainCategoryId);
    [HomeCrumb]
    + (if main.Some? then [Crumb(main.value.nameAr, Some(Products))] else [])
    + [Crumb(p.subCategory.nameAr, None), Crumb(p.nameAr, None)]
  }

  // --- Specifications ---

  datatype SpecValue = Text(text: string) | Kilograms(weight: real)

  datatype SpecRow = BrandRow | DimensionsRow(dimensions: string) | WeightRow(weight: SpecValue) | MaterialRow(material: string)

  /** The place of each kind of row in the table: brand, dimensions, weight, material. */
  function RowRank(row: SpecRow): nat
  {
    match row
    case BrandRow => 0
    case DimensionsRow(_) => 1
    case WeightRow(_) => 2
    case MaterialRow(_) => 3
  }

  function Present(x: Option<string>): nat
  {
    if TextTruthy(x) then 1 else 0
  }

  function DimensionsRows(p: Product): seq<SpecRow>
  {
    if TextTruthy(p.dimensions) then [DimensionsRow(p.dimensions.value)] else []
  }

  function WeightRows(p: Product): seq<SpecRow>
  {
    if NumberTruthy(p.weight) then [WeightRow(Kilograms(p.weight.value))] else []
  }

  function MaterialRows(p: Product): seq<SpecRow>
  {
    if TextTruthy(p.material) then [MaterialRow(p.material.value)] else []
  }

  /** The brand row, then dimensions, weight and material, each only when
      the product has a truthy value for it. */
  function Specifications(p: Product): (r: seq<SpecRow>)
    ensures |r| == 1 + Present(p.dimensions) + (if NumberTruthy(p.weight) then 1 else 0) + Present(p.material)
    ensures r[0] == BrandRow
    ensures (exists k :: 0 <= k < |r| && r[k].DimensionsRow?) <==> TextTruthy(p.dimensions)
    ensures (exists k :: 0 <= k < |r| && r[k].WeightRow?) <==> NumberTruthy(p.weight)
    ensures (exists k :: 0 <= k < |r| && r[k].MaterialRow?) <==> TextTruthy(p.material)
    ensures forall k :: 0 <= k < |r| && r[k].DimensionsRow? ==> r[k].dimensions == p.dimensions.value
    ensures forall k :: 0 <= k < |r| && r[k].WeightRow? ==> r[k].weight == Kilograms(p.weight.value)
    ensures forall k :: 0 <= k < |r| && r[k].MaterialRow? ==> r[k].material == p.material.value
    ensures forall k :: 0 < k < |r| ==> RowRank(r[k - 1]) < RowRank(r[k])
  {
    TableShape(p);
    [BrandRow] + DimensionsRows(p) + WeightRows(p) + MaterialRows(p)
  }

  lemma TableShape(p: Product)
    ensures var r := [BrandRow] + DimensionsRows(p) + WeightRows(p) + MaterialRows(p);
            |r| == 1 + Present(p.dimensions) + (if NumberTruthy(p.weight) then 1 else 0) + Present(p.material)
            && r[0] == BrandRow
            && ((exists k :: 0 <= k < |r| && r[k].DimensionsRow?) <==> TextTruthy(p.dimensions))
            && ((exists k :: 0 <= k < |r| && r[k].WeightRow?) <==> NumberTruthy(p.weight))
            && ((exists k :: 0 <= k < |r| && r[k].MaterialRow?) <==> TextTruthy(p.material))
            && (forall k :: 0 <= k < |r| && r[k].DimensionsRow? ==> r[k].dimensions == p.dimensions.value)
            && (forall k :: 0 <= k < |r| && r[k].WeightRow? ==> r[k].weight == Kilograms(p.weight.value))
            && (forall k :: 0 <= k < |r| && r[k].MaterialRow? ==> r[k].material == p.material.value)
            && (forall k :: 0 < k < |r| ==> RowRank(r[k - 1]) < RowRank(r[k]))
  {
    var d, w, m := DimensionsRows(p), WeightRows(p), MaterialRows(p);
    RowsShape(d, w, m);
  }

  /** Where each optional row lands in the table. */
  lemma RowsShape(d: seq<SpecRow>, w: seq<SpecRow>, m: seq<SpecRow>)
    requires |d| <= 1 && |w| <= 1 && |m| <= 1
    requires forall x :: x in d ==> x.DimensionsRow?
    requires forall x :: x in w ==> x.WeightRow?
    requires forall x :: x in m ==> x.MaterialRow?
    ensures var r := [BrandRow] + d + w + m;
            (forall k :: 0 <= k < |r| ==>
              (r[k].DimensionsRow? ==> r[k] in d) && (r[k].WeightRow? ==> r[k] in w) && (r[k].MaterialRow? ==> r[k] in m))
            && (d != [] ==> r[1] == d[0]) && (w != [] ==> r[1 + |d|] == w[0]) && (m != [] ==> r[1 + |d| + |w|] == m[0])
            && (forall k :: 0 < k < |r| ==> RowRank(r[k - 1]) < RowRank(r[k]))
  {
    var r := [BrandRow] + d + w + m;
    forall k | 0 <= k < |r|
      ensures (r[k].DimensionsRow? ==> r[k] in d) && (r[k].WeightRow? ==> r[k] in w) && (r[k].MaterialRow? ==> r[k] in m)
    {
      if k == 0 {
      } else if k < 1 + |d| {
        assert r[k] == d[k - 1];
        assert r[k] in d;
      } else if k < 1 + |d| + |w| {
        assert r[k] == w[k - 1 - |d|];
        assert r[k] in w;
      } else {
        assert r[k] == m[k - 1 - |d| - |w|];
        assert r[k] in m;
      }
    }
    forall k | 0 < k < |r| ensures RowRank(r[k - 1]) < RowRank(r[k]) {
      assert RowRank(r[k - 1]) == Segment(k - 1, |d|, |w|) && RowRank(r[k]) == Segment(k, |d|, |w|);
    }
  }

  /** Which part of `[BrandRow] + d + w + m` position `k` falls in. */
  function Segment(k: int, nd: int, nw: int): nat
  {
    if k == 0 then 0 else if k < 1 + nd then 1 else if k < 1 + nd + nw then 2 else 3
  }

  // --- Stars ---

  /** Star `i` of 0..4 is filled when `i < average`. */
  function Stars(average: real): (r: seq<bool>)
    ensures |r| == 5
    ensures forall k :: 0 <= k < 5 ==> (r[k] <==> (k as real) < average)
  {
    seq(5, k => (k as real) < average)
  }

  /** The page fills as many stars as the average rounded up, between 0 and 5;
      so a fractional average fills one star more than the product card. */
  lemma StarsCount(average: real)
    ensures ProductCard.Filled(Stars(average)) == if average <= 0.0 then 0 else if average > 4.0 then 5 else -((-average).Floor)
    ensures 0.0 < average < 5.0 && average.Floor as real != average ==>
              ProductCard.Filled(Stars(average)) == ProductCard.Filled(ProductCard.Stars(average)) + 1
    ensures average.Floor as real == average ==> ProductCard.Filled(Stars(average)) == ProductCard.Filled(ProductCard.Stars(average))
  {
    ProductCard.FilledFive(Stars(average));
    ProductCard.StarsCount(average);
  }

  // --- Reviews ---

  /** The signed-in user as the page sees it. */
  datatype Account = Account(id: string, fullName: Option<string>, avatarUrl: Option<string>)

  /** What the page hands to the review insert. */
  datatype ReviewPost = ReviewPost(productId: string, userId: string, userName: string,
                                   userAvatarUrl: Option<string>, rating: int, reviewText: string)

  const AnonymousName: string := "مستخدم"

  /** `handleAddReview`: nothing without a signed-in user; otherwise the
      review under the product and the user, named by the user's full name
      or the generic name when it is missing or empty. */
  function ReviewFor(p: Product, user: Option<Account>, rating: int, reviewText: string): (r: Option<ReviewPost>)
    ensures r.Some? <==> user.Some?
    ensures r.Some? ==> r.value.productId == p.id && r.value.userId == user.value.id
                        && r.value.rating == rating && r.value.reviewText == reviewText
                        && r.value.userAvatarUrl == user.value.avatarUrl
    ensures r.Some? ==> r.value.userName == (if TextTruthy(user.value.fullName) then user.value.fullName.value else AnonymousName)
    ensures r.Some? ==> r.value.userName != ""
  {
    if user.None? then None
    else
      var name := if TextTruthy(user.value.fullName) then user.value.fullName.value else AnonymousName;
      Some(ReviewPost(p.id, user.value.id, name, user.value.avatarUrl, rating, reviewText))
  }
}

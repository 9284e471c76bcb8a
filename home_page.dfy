/** The homepage (pages/HomePage.tsx): the product lists of the carousels,
    the hero carousel and the stacked-card carousel with their wrapping
    indices, the category grid, and where a banner's button leads. */
module HomePage {
  import opened Types
  import opened Seqs
  import Deals

  // --- Carousel products ---

  /** The product a carousel of the given filter keeps. */
  predicate Picks(f: CarouselFilter, p: Product)
  {
    match f
    case ByBestseller => p.isBestseller
    case ByNew => p.isNew
    case BySale => NumberTruthy(p.originalPrice)
  }

  function Picker(f: CarouselFilter): Product -> bool
  {
    (p: Product) => Picks(f, p)
  }

  /** `useProductsByFilter`: the first eight catalogue products the filter
      keeps, in catalogue order. */
  function CarouselProducts(products: seq<Product>, f: CarouselFilter): (r: seq<Product>)
    ensures |r| <= 8
    ensures forall p :: p in r ==> p in products && Picks(f, p)
    ensures Subsequence(r, products)
    ensures |r| < 8 ==> forall p :: p in products && Picks(f, p) ==> p in r
  {
    var all := Filter(products, Picker(f));
    var r := Take(all, 8);
    FilterIsSubsequence(products, Picker(f));
    PrefixIsSubsequence(r, all);
    SubsequenceTrans(r, all, products);
    r
  }

  /** The sale carousel shows the first eight products of the deals page. */
  lemma SaleCarouselIsDeals(products: seq<Product>)
    ensures CarouselProducts(products, BySale) == Take(Deals.DealProducts(products), 8)
  {
    FilterExt(products, Picker(BySale), Deals.OnDeal);
  }

  // --- Hero carousel ---

  /** `nextSlide` (and the five-second timer): the last banner wraps to the first. */
  function HeroNext(i: int, n: int): (r: int)
    ensures 0 <= i < n ==> 0 <= r < n
  {
    if i == n - 1 then 0 else i + 1
  }

  /** `prevSlide`: the first banner wraps to the last. */
  function HeroPrev(i: int, n: int): (r: int)
    ensures 0 <= i < n ==> 0 <= r < n
  {
    if i == 0 then n - 1 else i - 1
  }

  /** Going forward then back, or back then forward, returns to the banner. */
  lemma HeroNextPrev(i: int, n: int)
    requires 0 <= i < n
    ensures HeroPrev(HeroNext(i, n), n) == i
    ensures HeroNext(HeroPrev(i, n), n) == i
  {
  }

  /** The hero carousel's slide index over `count` banners. */
  class HeroCarousel {
    const count: nat
    var current: int

    predicate Valid()
      reads this
    {
      0 <= current && (count > 0 ==> current < count)
    }

    constructor(count: nat)
      ensures this.count == count && current == 0 && Valid()
    {
      this.count := count;
      current := 0;
    }

    /** The arrow and the timer only exist while a banner is shown. */
    method Next()
      requires Valid() && count > 0
      modifies this
      ensures current == HeroNext(old(current), count) && Valid()
    {
      current := if current == count - 1 then 0 else current + 1;
    }

    method Prev()
      requires Valid() && count > 0
      modifies this
      ensures current == HeroPrev(old(current), count) && Valid()
    {
      current := if current == 0 then count - 1 else current - 1;
    }

    /** `goToSlide` from the dot of banner `slide`. */
    method GoTo(slide: int)
      requires Valid() && 0 <= slide < count
      modifies this
      ensures current == slide && Valid()
    {
      current := slide;
    }
  }

  // --- Stacked-card carousel ---

  /** JavaScript's `%` for a positive divisor: the remainder takes the sign
      of the dividend. */
  function JsRem(a: int, n: int): (r: int)
    requires n > 0
    ensures -n < r < n
    ensures a >= 0 ==> r >= 0
    ensures a <= 0 ==> r <= 0
    ensures a >= 0 ==> r == a % n
  {
    if a >= 0 then a % n else -((-a) % n)
  }

  /** `handleNext`. */
  function StackedNext(i: int, n: int): int
    requires n > 0
  {
    JsRem(i + 1, n)
  }

  /** `handlePrev`. */
  function StackedPrev(i: int, n: int): int
    requires n > 0
  {
    JsRem(i - 1 + n, n)
  }

  /** From an index in range both moves stay in range, undo each other, and
      agree with the hero carousel's explicit wrapping. */
  lemma StackedMoves(i: int, n: int)
    requires 0 <= i < n
    ensures 0 <= StackedNext(i, n) < n && 0 <= StackedPrev(i, n) < n
    ensures StackedPrev(StackedNext(i, n), n) == i
    ensures StackedNext(StackedPrev(i, n), n) == i
    ensures StackedNext(i, n) == HeroNext(i, n) && StackedPrev(i, n) == HeroPrev(i, n)
  {
    Wrap(i + 1, n);
    Wrap(i - 1 + n, n);
    Wrap(HeroNext(i, n) - 1 + n, n);
    Wrap(HeroPrev(i, n) + 1, n);
  }

  /** A value in [0, 2n) reduced modulo n. */
  lemma Wrap(a: int, n: int)
    requires n > 0 && 0 <= a < 2 * n
    ensures JsRem(a, n) == if a < n then a else a - n
  {
  }

  /** A card's distance behind the active one. */
  function Offset(index: int, active: int, n: int): int
    requires n > 0
  {
    JsRem(index - active + n, n)
  }

  lemma OffsetCases(index: int, active: int, n: int)
    requires 0 <= index < n && 0 <= active < n
    ensures Offset(index, active, n) == if index >= active then index - active else index - active + n
  {
    Wrap(index - active + n, n);
  }

  /** How a card is drawn. */
  datatype Card = Card(zIndex: int, translateY: int, scale: real, opacity: int, clickable: bool)

  /** The card of product `index`, or none when it sits four or more places
      behind the active one. */
  function CardAt(index: int, active: int, n: int): Option<Card>
    requires n > 0
  {
    var offset := Offset(index, active, n);
    if offset < 4 then
      Some(Card(n - offset, offset * 20, 1.0 - offset as real * 0.05, if offset == 3 then 0 else 1, offset == 0))
    else None
  }

  /** Over an in-range active index: offsets are distinct and in [0, n); the
      active card alone takes clicks and lies on top; a drawn card's
      z-index is n minus its offset. */
  lemma StackedCards(i: int, j: int, active: int, n: int)
    requires 0 <= i < n && 0 <= j < n && 0 <= active < n
    ensures 0 <= Offset(i, active, n) < n
    ensures Offset(i, active, n) == 0 <==> i == active
    ensures i != j ==> Offset(i, active, n) != Offset(j, active, n)
    ensures CardAt(i, active, n).Some? ==> (CardAt(i, active, n).value.clickable <==> i == active)
    ensures CardAt(i, active, n).Some? ==> CardAt(i, active, n).value.zIndex == n - Offset(i, active, n)
    ensures CardAt(i, active, n).Some? && i != active ==> CardAt(i, active, n).value.zIndex < n
    ensures CardAt(active, active, n).Some? && CardAt(active, active, n).value.zIndex == n
  {
    OffsetCases(i, active, n);
    OffsetCases(j, active, n);
    OffsetCases(active, active, n);
  }

  /** For every offset k below min(n, 4) exactly one card is drawn k places
      behind the active one: product (active + k) mod n. */
  lemma StackedCardAtOffset(k: int, active: int, n: int)
    requires 0 <= active < n && 0 <= k < 4 && k < n
    ensures var i := JsRem(active + k, n);
            0 <= i < n && Offset(i, active, n) == k && CardAt(i, active, n).Some?
    ensures forall j :: 0 <= j < n && Offset(j, active, n) == k ==> j == JsRem(active + k, n)
  {
    Wrap(active + k, n);
    var i := JsRem(active + k, n);
    OffsetCases(i, active, n);
    forall j | 0 <= j < n && Offset(j, active, n) == k ensures j == i {
      OffsetCases(j, active, n);
    }
  }

  /** The stacked carousel's active card over `count` products. */
  class StackedCarousel {
    const count: nat
    var active: int

    predicate Valid()
      reads this
    {
      0 <= active && (count > 0 ==> active < count)
    }

    constructor(count: nat)
      ensures this.count == count && active == 0 && Valid()
    {
      this.count := count;
      active := 0;
    }

    /** The buttons only exist while a product is shown. */
    method Next()
      requires Valid() && count > 0
      modifies this
      ensures active == StackedNext(old(active), count) && Valid()
    {
      StackedMoves(active, count);
      active := (active + 1) % count;
    }

    method Prev()
      requires Valid() && count > 0
      modifies this
      ensures active == StackedPrev(old(active), count) && Valid()
    {
      StackedMoves(active, count);
      active := (active - 1 + count) % count;
    }
  }

  // --- Category grid ---

  function ListedIn(ids: seq<string>): Category -> bool
  {
    (c: Category) => c.id in ids
  }

  /** `categoriesToShow`: the catalogue's categories whose id the section
      lists, in catalogue order rather than the section's. */
  function CategoriesToShow(categories: seq<Category>, ids: seq<string>): (r: seq<Category>)
    ensures forall c :: c in r <==> c in categories && c.id in ids
    ensures Subsequence(r, categories)
  {
    FilterIsSubsequence(categories, ListedIn(ids));
    Filter(categories, ListedIn(ids))
  }

  // --- Banner buttons ---

  /** Where a banner's button leads. */
  datatype Destination = ToPage(page: Page) | ToCategory(categoryId: string)

  /** `handleNavigation`: a page link opens the page it names, any other link
      selects the category whose id it holds. */
  function Navigation(link: string, linkType: LinkType): (d: Destination)
    ensures linkType == PageLink ==> d.ToPage? && (link == PageName(d.page) || d.page == Home)
    ensures linkType == CategoryLink ==> d == ToCategory(link)
  {
    if linkType == PageLink then ToPage(PageNamed(link)) else ToCategory(link)
  }

  /** A page link written from a page's own name opens that page. */
  lemma NavigationToNamedPage(p: Page)
    ensures Navigation(PageName(p), PageLink) == ToPage(p)
  {
    PageNameRoundTrip(p);
  }
}

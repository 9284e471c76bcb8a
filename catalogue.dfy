/** The catalogue page (pages/ProductsPage.tsx) with its filter sidebar
    (components/Sidebar.tsx): the filter/sort pipeline, the material list,
    the price ceiling, pages of twelve and the browse state the sidebar edits.
    The fuzzy search is an oracle passed in as a function. */
module Catalogue {
  import opened Types
  import opened Seqs
  import opened Text

  /** The `sortBy` values the sort menu offers; any other value keeps the order. */
  datatype SortKey = DefaultOrder | PriceAsc | PriceDesc | RatingDesc | Newest

  datatype PriceRange = PriceRange(min: real, max: real)

  /** Everything the sidebar and the sort menu select. */
  datatype Filters = Filters(
    categoryId: Option<string>,
    subCategoryIds: seq<string>,
    priceRange: PriceRange,
    minRating: int,
    materials: seq<string>,
    sortBy: SortKey)

  // --- The filter stages ---

  /** `material.split(',').map(m => m.trim())`. */
  function Tokens(material: string): seq<string>
  {
    var pieces := Text.Split(material, ',');
    seq(|pieces|, i requires 0 <= i < |pieces| => Trim(pieces[i]))
  }

  /** With a (truthy) category selected, the product belongs to it. */
  predicate InCategory(p: Product, f: Filters)
  {
    TextTruthy(f.categoryId) ==> p.subCategory.mainCategoryId == f.categoryId.value
  }

  /** Sub-categories count only inside a selected category, and only when some are ticked. */
  predicate InSubCategories(p: Product, f: Filters)
  {
    TextTruthy(f.categoryId) && |f.subCategoryIds| > 0 ==> p.subCategory.id in f.subCategoryIds
  }

  /** Both ends of the price range are inclusive. */
  predicate InPriceRange(p: Product, f: Filters)
  {
    f.priceRange.min <= p.price && p.price <= f.priceRange.max
  }

  /** A positive floor compares the raw, unrounded average. */
  predicate MeetsRating(p: Product, f: Filters)
  {
    f.minRating > 0 ==> p.ratings.average >= f.minRating as real
  }

  /** The product has a (truthy) material one of whose tokens is among `ticked`. */
  predicate MadeOfOneOf(p: Product, ticked: seq<string>)
  {
    TextTruthy(p.material) && exists m :: m in ticked && m in Tokens(p.material.value)
  }

  /** With materials ticked, the product is made of one of them. */
  predicate HasMaterial(p: Product, f: Filters)
  {
    |f.materials| > 0 ==> MadeOfOneOf(p, f.materials)
  }

  /** The first `k` filter stages, in the order the page applies them. */
  predicate Stages(p: Product, f: Filters, k: nat)
  {
    (k >= 1 ==> InCategory(p, f)) && (k >= 2 ==> InSubCategories(p, f)) && (k >= 3 ==> InPriceRange(p, f))
    && (k >= 4 ==> MeetsRating(p, f)) && (k >= 5 ==> HasMaterial(p, f))
  }

  /** A product is listed without a search exactly when it passes every stage. */
  predicate Matches(p: Product, f: Filters)
  {
    Stages(p, f, 5)
  }

  function StagesUpTo(f: Filters, k: nat): Product -> bool
  {
    p => Stages(p, f, k)
  }

  function Matching(f: Filters): Product -> bool
  {
    p => Matches(p, f)
  }

  // The page's filter callbacks, one per stage.
  function ByMainCategory(id: string): Product -> bool { (p: Product) => p.subCategory.mainCategoryId == id }
  function BySubCategories(ids: seq<string>): Product -> bool { (p: Product) => p.subCategory.id in ids }
  function ByPrice(range: PriceRange): Product -> bool { (p: Product) => p.price >= range.min && p.price <= range.max }
  function ByRating(minRating: int): Product -> bool { (p: Product) => p.ratings.average >= minRating as real }
  function ByMaterials(ticked: seq<string>): Product -> bool { (p: Product) => MadeOfOneOf(p, ticked) }

  /** Filtering by stage `k + 1` after the first `k` stages is filtering by `k + 1` stages. */
  lemma StageStep(s: seq<Product>, f: Filters, k: nat, g: Product -> bool)
    requires forall p :: Stages(p, f, k + 1) == (Stages(p, f, k) && g(p))
    ensures Filter(Filter(s, StagesUpTo(f, k)), g) == Filter(s, StagesUpTo(f, k + 1))
  {
    FilterFilter(s, StagesUpTo(f, k), g, StagesUpTo(f, k + 1));
  }

  /** A skipped stage is one that holds for every product. */
  lemma StageSkipped(s: seq<Product>, f: Filters, k: nat)
    requires forall p :: Stages(p, f, k + 1) == Stages(p, f, k)
    ensures Filter(s, StagesUpTo(f, k)) == Filter(s, StagesUpTo(f, k + 1))
  {
    FilterExt(s, StagesUpTo(f, k), StagesUpTo(f, k + 1));
  }

  /** Each stage of the page either filters by its callback or, when its
      condition fails, lets every product through. */
  lemma CategoryStage(s: seq<Product>, f: Filters)
    ensures TextTruthy(f.categoryId) ==>
              Filter(Filter(s, StagesUpTo(f, 0)), ByMainCategory(f.categoryId.value)) == Filter(s, StagesUpTo(f, 1))
    ensures !TextTruthy(f.categoryId) ==> Filter(s, StagesUpTo(f, 0)) == Filter(s, StagesUpTo(f, 2))
  {
    if TextTruthy(f.categoryId) {
      StageStep(s, f, 0, ByMainCategory(f.categoryId.value));
    } else {
      StageSkipped(s, f, 0);
      StageSkipped(s, f, 1);
    }
  }

  lemma SubCategoryStage(s: seq<Product>, f: Filters)
    requires TextTruthy(f.categoryId)
    ensures |f.subCategoryIds| > 0 ==>
              Filter(Filter(s, StagesUpTo(f, 1)), BySubCategories(f.subCategoryIds)) == Filter(s, StagesUpTo(f, 2))
    ensures |f.subCategoryIds| == 0 ==> Filter(s, StagesUpTo(f, 1)) == Filter(s, StagesUpTo(f, 2))
  {
    if |f.subCategoryIds| > 0 {
      StageStep(s, f, 1, BySubCategories(f.subCategoryIds));
    } else {
      StageSkipped(s, f, 1);
    }
  }

  lemma PriceStage(s: seq<Product>, f: Filters)
    ensures Filter(Filter(s, StagesUpTo(f, 2)), ByPrice(f.priceRange)) == Filter(s, StagesUpTo(f, 3))
  {
    StageStep(s, f, 2, ByPrice(f.priceRange));
  }

  lemma RatingStage(s: seq<Product>, f: Filters)
    ensures f.minRating > 0 ==>
              Filter(Filter(s, StagesUpTo(f, 3)), ByRating(f.minRating)) == Filter(s, StagesUpTo(f, 4))
    ensures f.minRating <= 0 ==> Filter(s, StagesUpTo(f, 3)) == Filter(s, StagesUpTo(f, 4))
  {
    if f.minRating > 0 {
      StageStep(s, f, 3, ByRating(f.minRating));
    } else {
      StageSkipped(s, f, 3);
    }
  }

  lemma MaterialStage(s: seq<Product>, f: Filters)
    ensures |f.materials| > 0 ==>
              Filter(Filter(s, StagesUpTo(f, 4)), ByMaterials(f.materials)) == Filter(s, Matching(f))
    ensures |f.materials| == 0 ==> Filter(s, StagesUpTo(f, 4)) == Filter(s, Matching(f))
  {
    if |f.materials| > 0 {
      StageStep(s, f, 4, ByMaterials(f.materials));
    } else {
      StageSkipped(s, f, 4);
    }
    FilterExt(s, StagesUpTo(f, 5), Matching(f));
  }

  // --- Sorting ---

  /** The comparators, each as "returns a value <= 0", i.e. may come first. */
  predicate CheaperFirst(a: Product, b: Product) { a.price - b.price <= 0.0 }
  predicate DearerFirst(a: Product, b: Product) { b.price - a.price <= 0.0 }
  predicate BetterRatedFirst(a: Product, b: Product) { b.ratings.average - a.ratings.average <= 0.0 }
  predicate NewFirst(a: Product, b: Product) { a.isNew == b.isNew || a.isNew }

  /** The `switch (sortBy)`: a stable sort under the chosen comparator. */
  function SortBy(s: seq<Product>, key: SortKey): seq<Product>
  {
    match key
    case DefaultOrder => s
    case PriceAsc => Sort(s, CheaperFirst)
    case PriceDesc => Sort(s, DearerFirst)
    case RatingDesc => Sort(s, BetterRatedFirst)
    case Newest => Sort(s, NewFirst)
  }

  /** Every sort key rearranges without adding or losing a product, and orders
      each adjacent pair as its comparator says; the default keeps the order. */
  lemma SortByOrders(s: seq<Product>, key: SortKey)
    ensures multiset(SortBy(s, key)) == multiset(s)
    ensures var r := SortBy(s, key);
            match key
            case DefaultOrder => r == s
            case PriceAsc => forall i :: 0 < i < |r| ==> r[i - 1].price <= r[i].price
            case PriceDesc => forall i :: 0 < i < |r| ==> r[i - 1].price >= r[i].price
            case RatingDesc => forall i :: 0 < i < |r| ==> r[i - 1].ratings.average >= r[i].ratings.average
            case Newest => forall i :: 0 < i < |r| ==> r[i - 1].isNew || !r[i].isNew
  {
    match key
    case DefaultOrder =>
    case PriceAsc => SortSorted(s, CheaperFirst);
    case PriceDesc => SortSorted(s, DearerFirst);
    case RatingDesc => SortSorted(s, BetterRatedFirst);
    case Newest => SortSorted(s, NewFirst);
  }

  predicate IsNew(p: Product) { p.isNew }
  predicate IsOld(p: Product) { !p.isNew }

  /** "Newest" is a stable partition: the new products in their order, then the rest in theirs. */
  lemma NewestPartitions(s: seq<Product>)
    ensures SortBy(s, Newest) == Filter(s, IsNew) + Filter(s, IsOld)
  {
    SortPartitions(s, NewFirst, IsNew, IsOld);
  }

  // --- filteredAndSortedProducts ---

  /** The filter half of `filteredAndSortedProducts` without a query: the
      category, sub-category, price, rating and material stages in turn, each
      applied only when the page's condition for it holds. */
  method ApplyFilters(allProducts: seq<Product>, f: Filters) returns (filtered: seq<Product>)
    ensures filtered == Filter(allProducts, Matching(f))
  {
    filtered := allProducts;
    FilterAll(allProducts, StagesUpTo(f, 0));
    CategoryStage(allProducts, f);
    if TextTruthy(f.categoryId) {
      filtered := Filter(filtered, ByMainCategory(f.categoryId.value));
      SubCategoryStage(allProducts, f);
      if |f.subCategoryIds| > 0 {
        filtered := Filter(filtered, BySubCategories(f.subCategoryIds));
      }
    }
    PriceStage(allProducts, f);
    filtered := Filter(filtered, ByPrice(f.priceRange));
    RatingStage(allProducts, f);
    if f.minRating > 0 {
      filtered := Filter(filtered, ByRating(f.minRating));
    }
    MaterialStage(allProducts, f);
    if |f.materials| > 0 {
      filtered := Filter(filtered, ByMaterials(f.materials));
    }
  }

  /** `filteredAndSortedProducts`: a non-empty query takes the search oracle's
      ranking and skips every filter; otherwise the catalogue goes through the
      filter stages. The chosen sort applies in both cases. */
  method FilteredAndSorted(allProducts: seq<Product>, searchQuery: string,
                           search: (seq<Product>, string) -> seq<Product>, f: Filters)
    returns (r: seq<Product>)
    ensures searchQuery != "" ==> r == SortBy(search(allProducts, searchQuery), f.sortBy)
    ensures searchQuery == "" ==> r == SortBy(Filter(allProducts, Matching(f)), f.sortBy)
  {
    var filtered;
    if searchQuery != "" {
      filtered := search(allProducts, searchQuery);
    } else {
      filtered := ApplyFilters(allProducts, f);
    }
    match f.sortBy
    case PriceAsc => r := Sort(filtered, CheaperFirst);
    case PriceDesc => r := Sort(filtered, DearerFirst);
    case RatingDesc => r := Sort(filtered, BetterRatedFirst);
    case Newest => r := Sort(filtered, NewFirst);
    case DefaultOrder => r := filtered;
  }

  /** Without a query, the listing holds exactly the catalogue products that
      pass every active stage (each once per occurrence in the catalogue), and
      before sorting it is a subsequence of the catalogue. */
  lemma ListingIsExact(allProducts: seq<Product>, f: Filters)
    ensures var r := SortBy(Filter(allProducts, Matching(f)), f.sortBy);
            forall p :: p in r <==> p in allProducts && Matches(p, f)
    ensures Subsequence(Filter(allProducts, Matching(f)), allProducts)
  {
    var kept := Filter(allProducts, Matching(f));
    SortByOrders(kept, f.sortBy);
    var r := SortBy(kept, f.sortBy);
    forall p ensures p in r <==> p in kept {
      assert p in r <==> multiset(r)[p] > 0;
      assert p in kept <==> multiset(kept)[p] > 0;
    }
    FilterIsSubsequence(allProducts, Matching(f));
  }

  /** Each stage, spelled out: every listed product is in the selected
      category, among the ticked sub-categories, inside the price range, at or
      above the rating floor and made of a ticked material. */
  lemma ListedProductsPassEveryStage(allProducts: seq<Product>, f: Filters, p: Product)
    requires p in SortBy(Filter(allProducts, Matching(f)), f.sortBy)
    ensures TextTruthy(f.categoryId) ==> p.subCategory.mainCategoryId == f.categoryId.value
    ensures TextTruthy(f.categoryId) && |f.subCategoryIds| > 0 ==> p.subCategory.id in f.subCategoryIds
    ensures f.priceRange.min <= p.price <= f.priceRange.max
    ensures f.minRating > 0 ==> p.ratings.average >= f.minRating as real
    ensures |f.materials| > 0 ==> TextTruthy(p.material) && exists m :: m in f.materials && m in Tokens(p.material.value)
  {
    ListingIsExact(allProducts, f);
  }

  /** With a query, the listing is the oracle's ranking rearranged by the sort
      key, whatever the filters say. */
  lemma SearchBypassesFilters(ranked: seq<Product>, f: Filters, g: Filters)
    requires f.sortBy == g.sortBy
    ensures SortBy(ranked, f.sortBy) == SortBy(ranked, g.sortBy)
    ensures multiset(SortBy(ranked, f.sortBy)) == multiset(ranked)
  {
    SortByOrders(ranked, f.sortBy);
  }

  // --- availableMaterials ---

  /** Code-unit sequences in lexicographic order. */
  predicate UnitsLeq(a: seq<int>, b: seq<int>)
    decreases |a|
  {
    a == [] || (b != [] && (a[0] < b[0] || (a[0] == b[0] && UnitsLeq(a[1..], b[1..]))))
  }

  /** `a <= b` on strings as the default `sort()` compares them: by UTF-16
      code units, so a character beyond U+FFFF compares by its high surrogate. */
  predicate CodeUnitLeq(a: string, b: string)
  {
    UnitsLeq(Text.CodeUnits(a), Text.CodeUnits(b))
  }

  lemma {:induction false} UnitsLeqTotal(a: seq<int>, b: seq<int>)
    ensures UnitsLeq(a, b) || UnitsLeq(b, a)
    decreases |a|
  {
    if a != [] && b != [] && a[0] == b[0] {
      UnitsLeqTotal(a[1..], b[1..]);
    }
  }

  lemma CodeUnitOrderTotal()
    ensures Total(CodeUnitLeq)
  {
    forall a, b ensures CodeUnitLeq(a, b) || CodeUnitLeq(b, a) {
      UnitsLeqTotal(Text.CodeUnits(a), Text.CodeUnits(b));
    }
  }

  /** The order is not the order of the characters: U+1F600 is stored as
      D83D DE00 and so sorts before U+FF01, which comes earlier as a character. */
  lemma SurrogatesSortLow()
    ensures '\U{FF01}' < '\U{1F600}'
    ensures CodeUnitLeq("\U{1F600}", "\U{FF01}") && !CodeUnitLeq("\U{FF01}", "\U{1F600}")
  {
    assert Text.CodeUnits("\U{1F600}") == [0xD83D, 0xDE00];
    assert Text.CodeUnits("\U{FF01}") == [0xFF01];
  }

  /** The trimmed material tokens of the products in `ps`. */
  ghost function MaterialsOf(ps: seq<Product>): set<string>
    decreases |ps|
  {
    if ps == [] then {}
    else
      var p := ps[|ps| - 1];
      MaterialsOf(ps[..|ps| - 1]) + (if TextTruthy(p.material) then set t | t in Tokens(p.material.value) else {})
  }

  /** The inner `forEach`: each token not yet in the Set is added. */
  method AddTokens(materials: seq<string>, tokens: seq<string>) returns (r: seq<string>)
    requires Distinct(materials)
    ensures forall t :: t in r <==> t in materials || t in tokens
    ensures Distinct(r)
  {
    r := materials;
    var j := 0;
    while j < |tokens|
      invariant 0 <= j <= |tokens|
      invariant forall t :: t in r <==> t in materials || t in tokens[..j]
      invariant Distinct(r)
    {
      assert tokens[..j + 1] == tokens[..j] + [tokens[j]];
      if tokens[j] !in r {
        DistinctSnoc(r, tokens[j]);
        r := r + [tokens[j]];
      }
      j := j + 1;
    }
    assert tokens[..j] == tokens;
  }

  /** `availableMaterials`: a Set filled by the nested `forEach`, then sorted.
      The result holds every trimmed token of every (truthy) material, once
      each, in code-unit order. */
  method AvailableMaterials(allProducts: seq<Product>) returns (r: seq<string>)
    ensures forall t :: t in r <==> t in MaterialsOf(allProducts)
    ensures Distinct(r)
    ensures SortedBy(r, CodeUnitLeq)
  {
    var materials: seq<string> := [];
    var i := 0;
    while i < |allProducts|
      invariant 0 <= i <= |allProducts|
      invariant forall t :: t in materials <==> t in MaterialsOf(allProducts[..i])
      invariant Distinct(materials)
    {
      var p := allProducts[i];
      assert allProducts[..i + 1][..i] == allProducts[..i];
      if TextTruthy(p.material) {
        materials := AddTokens(materials, Tokens(p.material.value));
      }
      i := i + 1;
    }
    assert allProducts[..i] == allProducts;
    r := Sort(materials, CodeUnitLeq);
    SortedSet(materials);
  }

  /** Sorting the Set's values keeps them, once each, and orders them. */
  lemma SortedSet(materials: seq<string>)
    requires Distinct(materials)
    ensures var r := Sort(materials, CodeUnitLeq);
            (forall t :: t in r <==> t in materials) && Distinct(r) && SortedBy(r, CodeUnitLeq)
  {
    var r := Sort(materials, CodeUnitLeq);
    CodeUnitOrderTotal();
    SortSorted(materials, CodeUnitLeq);
    DistinctPermutation(materials, r);
    forall t ensures t in r <==> t in materials {
      assert t in r <==> multiset(r)[t] > 0;
      assert t in materials <==> multiset(materials)[t] > 0;
    }
  }

  // --- maxPrice ---

  /** `Math.ceil(x)`. */
  function Ceil(x: real): (n: int)
    ensures x <= n as real < x + 1.0
  {
    -((-x).Floor)
  }

  /** `Math.max(...prices, 1000)`. */
  function HighestPrice(ps: seq<Product>): (h: real)
    ensures h >= 1000.0
    ensures forall p :: p in ps ==> p.price <= h
    ensures h == 1000.0 || exists p :: p in ps && p.price == h
    decreases |ps|
  {
    if ps == [] then 1000.0
    else
      var rest := HighestPrice(ps[1..]);
      if ps[0].price > rest then ps[0].price else rest
  }

  /** The slider's ceiling: the highest price (at least 1000) rounded up to a
      multiple of 100. */
  function MaxPrice(ps: seq<Product>): (m: real)
    ensures m >= HighestPrice(ps) && m - 100.0 < HighestPrice(ps)
    ensures m >= 1000.0 && forall p :: p in ps ==> p.price <= m
    ensures (m / 100.0).Floor as real == m / 100.0
  {
    var k := Ceil(HighestPrice(ps) / 100.0);
    100.0 * k as real
  }

  // --- Pages of twelve ---

  const ProductsPerPage: int := 12

  /** `Math.ceil(n / 12)`. */
  function TotalPages(n: nat): (t: nat)
    ensures (t - 1) * ProductsPerPage < n <= t * ProductsPerPage || (n == 0 && t == 0)
  {
    (n + ProductsPerPage - 1) / ProductsPerPage
  }

  /** `slice((page - 1) * 12, page * 12)`. */
  function PageOf(s: seq<Product>, page: int): (r: seq<Product>)
    ensures |r| <= ProductsPerPage
    ensures page >= 1 && page * ProductsPerPage <= |s| ==> r == s[(page - 1) * ProductsPerPage..page * ProductsPerPage]
    ensures page >= 1 && (page - 1) * ProductsPerPage < |s| < page * ProductsPerPage ==> r == s[(page - 1) * ProductsPerPage..]
    ensures page >= 1 && (page - 1) * ProductsPerPage >= |s| ==> r == []
  {
    Slice(s, (page - 1) * ProductsPerPage, page * ProductsPerPage)
  }

  /** Every listed product appears on exactly the page `i / 12 + 1`, at slot `i % 12`,
      and that page is one of the `TotalPages` pages. */
  lemma EveryProductHasAPage(s: seq<Product>, i: int)
    requires 0 <= i < |s|
    ensures 1 <= i / ProductsPerPage + 1 <= TotalPages(|s|)
    ensures var page := PageOf(s, i / ProductsPerPage + 1);
            i % ProductsPerPage < |page| && page[i % ProductsPerPage] == s[i]
  {
    var p := i / ProductsPerPage + 1;
    assert (p - 1) * ProductsPerPage <= i < p * ProductsPerPage;
  }

  // --- The sidebar's selectors ---

  /** `relevantSubCategories`: none without a selected category, otherwise
      the sub-categories of the selected main category, in order. */
  function RelevantSubCategories(all: seq<SubCategory>, selected: Option<string>): (r: seq<SubCategory>)
    ensures !TextTruthy(selected) ==> r == []
    ensures forall sc :: sc in r <==> TextTruthy(selected) && sc in all && sc.mainCategoryId == selected.value
  {
    if !TextTruthy(selected) then [] else Filter(all, (sc: SubCategory) => sc.mainCategoryId == selected.value)
  }

  /** `handleRatingClick`: clicking the active rating reports 0, any other its own value. */
  function RatingClick(minRating: int, rating: int): (reported: int)
    ensures minRating == rating ==> reported == 0
    ensures minRating != rating ==> reported == rating
  {
    if minRating == rating then 0 else rating
  }

  /** `handleRatingChange`: the page's own toggle of the floor. */
  function RatingChange(prev: int, rating: int): (next: int)
    ensures prev == rating ==> next == 0
    ensures prev != rating ==> next == rating
  {
    if prev == rating then 0 else rating
  }

  /** The click passed through the page's toggle: a re-click ends at floor 0,
      any other click at the clicked rating. */
  lemma RatingClickThenChange(minRating: int, rating: int)
    ensures RatingChange(minRating, RatingClick(minRating, rating)) == if minRating == rating then 0 else rating
  {
  }

  // --- The browse state ---

  /** The page's filter state; every sidebar callback sends the page back to 1. */
  class Browse {
    var filters: Filters
    var currentPage: int

    /** Initial state: the given category, price range 0..maxPrice, page 1. */
    constructor(initialCategory: Option<string>, maxPrice: real)
      ensures filters == Filters(initialCategory, [], PriceRange(0.0, maxPrice), 0, [], DefaultOrder)
      ensures currentPage == 1
    {
      filters := Filters(initialCategory, [], PriceRange(0.0, maxPrice), 0, [], DefaultOrder);
      currentPage := 1;
    }

    /** The effect on a new `initialSelectedCategoryId`. */
    method CategoryPropChanged(categoryId: Option<string>)
      modifies this
      ensures filters == old(filters).(categoryId := categoryId, subCategoryIds := [])
      ensures currentPage == 1
    {
      filters := filters.(categoryId := categoryId, subCategoryIds := []);
      currentPage := 1;
    }

    /** The effect on a new `maxPrice`. */
    method MaxPriceChanged(maxPrice: real)
      modifies this
      ensures filters == old(filters).(priceRange := PriceRange(0.0, maxPrice))
      ensures currentPage == old(currentPage)
    {
      filters := filters.(priceRange := PriceRange(0.0, maxPrice));
    }

    /** The sidebar's `onSelectCategory`: also asks for the search to be cleared. */
    method SelectCategory(categoryId: Option<string>) returns (clearSearch: bool)
      modifies this
      ensures filters == old(filters).(categoryId := categoryId, subCategoryIds := [])
      ensures currentPage == 1 && clearSearch
    {
      filters := filters.(categoryId := categoryId, subCategoryIds := []);
      currentPage := 1;
      clearSearch := true;
    }

    /** `handleSubCategoryToggle` through `onSubCategoryChange`. */
    method ToggleSubCategory(id: string)
      modifies this
      ensures filters == old(filters).(subCategoryIds := Toggle(old(filters.subCategoryIds), id))
      ensures currentPage == 1
    {
      filters := filters.(subCategoryIds := Toggle(filters.subCategoryIds, id));
      currentPage := 1;
    }

    /** `handleMaterialToggle` through `onMaterialChange`. */
    method ToggleMaterial(material: string)
      modifies this
      ensures filters == old(filters).(materials := Toggle(old(filters.materials), material))
      ensures currentPage == 1
    {
      filters := filters.(materials := Toggle(filters.materials, material));
      currentPage := 1;
    }

    /** `onPriceChange`. */
    method ChangePrice(range: PriceRange)
      modifies this
      ensures filters == old(filters).(priceRange := range)
      ensures currentPage == 1
    {
      filters := filters.(priceRange := range);
      currentPage := 1;
    }

    /** A rating button: the sidebar's click handler feeding `handleRatingChange`. */
    method ClickRating(rating: int)
      modifies this
      ensures filters == old(filters).(minRating := if old(filters.minRating) == rating then 0 else rating)
      ensures currentPage == 1
    {
      var reported := RatingClick(filters.minRating, rating);
      filters := filters.(minRating := RatingChange(filters.minRating, reported));
      currentPage := 1;
    }

    /** The sort menu; the page number is left alone. */
    method ChangeSort(key: SortKey)
      modifies this
      ensures filters == old(filters).(sortBy := key)
      ensures currentPage == old(currentPage)
    {
      filters := filters.(sortBy := key);
    }

    /** A page button. */
    method GoToPage(page: int)
      modifies this
      ensures filters == old(filters) && currentPage == page
    {
      currentPage := page;
    }

    /** `handleClearFilters` with the sidebar's page reset: every filter back
        to its initial value; the search is cleared only when there is one. */
    method ClearFilters(searchQuery: string, maxPrice: real) returns (clearSearch: bool)
      modifies this
      ensures filters == Filters(None, [], PriceRange(0.0, maxPrice), 0, [], DefaultOrder)
      ensures currentPage == 1
      ensures clearSearch <==> searchQuery != ""
    {
      filters := Filters(None, [], PriceRange(0.0, maxPrice), 0, [], DefaultOrder);
      clearSearch := searchQuery != "";
      currentPage := 1;
    }

    /** The products shown and the page count. */
    method CurrentProducts(allProducts: seq<Product>, searchQuery: string,
                           search: (seq<Product>, string) -> seq<Product>)
      returns (shown: seq<Product>, totalPages: nat)
      ensures var listing := if searchQuery != "" then SortBy(search(allProducts, searchQuery), filters.sortBy)
                             else SortBy(Filter(allProducts, Matching(filters)), filters.sortBy);
              shown == PageOf(listing, currentPage) && totalPages == TotalPages(|listing|)
    {
      var listing := FilteredAndSorted(allProducts, searchQuery, search, filters);
      shown := PageOf(listing, currentPage);
      totalPages := TotalPages(|listing|);
    }
  }
}

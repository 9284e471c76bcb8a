# A verified model of an Arabic stationery storefront

The storefront is a React single-page shop. Customers browse a catalogue,
keep a cart and a wishlist, check out and follow their orders. An admin
console edits the catalogue, the site's content, orders, reviews and
customer chats. This project models the shop's decision logic in Dafny and
proves what that logic promises:

- the cart store: adding within stock, updating and removing lines, and
  merging a guest cart into the signed-in user's cart;
- the catalogue pipeline: search or filter stages, then sort, then
  paginate, plus the sidebar's filter toggles;
- the App-level rules: navigation, wishlist toggling, placing an order,
  and deleting products, sub-categories and categories;
- the admin editors: the product, category and sub-category forms, the
  content editor, the bestsellers list, the order, product and review
  lists, the chat inbox and the dashboard aggregates;
- the pure selectors behind the pages: deals, home page sections, product
  cards, quick view, product detail, related products, wishlist, cart,
  checkout, order history and the review form.

Pure selectors and validators are Dafny functions, each with lemmas about
it. Stores and components that change state step by step are classes whose
methods state their whole new state. Every loop of the source (a `forEach` or a `for`) is a
method with loop invariants, proved against a specification function; the
star rows of the product card and the quick-view modal, for example, are
`ProductCard.RenderStars` and `QuickView.RenderStars`, proved equal to the
comprehension `ProductCard.Stars`.
Network and storage calls are not modelled as such. Their results
(fetched rows, a stored guest cart, a fuzzy-search ranking, the
confirmation dialog's answer, the clock) are parameters.

JavaScript semantics are written out where they matter:

- truthiness of optional text and numbers (`Types.TextTruthy`,
  `Types.NumberTruthy`);
- `%` truncating towards zero (`HomePage.JsRem`);
- `Math.round` rounding halves up;
- `reduce` as a left fold;
- `Array.prototype.sort` as a stable sort;
- `String.prototype.split`, `trim` and `substring` with its clamping
  (module `Text`);
- React state setters that capture a stale snapshot.

Modules `Seqs` and `Text` are the generic sequence and string library the
model is built on: filter, take, a stable insertion sort, subsequences,
trimming, splitting and slugs.

## Model

A model function without an `ensures` clause is defined by its body alone.
It has no row of its own; the lemma rows citing the same source lines state
what it promises:

- `Dashboard.TotalRevenue` (components/admin/DashboardView.tsx:20-24): see `Dashboard.RevenueAppend`.
- `Dashboard.BestSelling` (components/admin/DashboardView.tsx:50-68): see `Dashboard.BestSellingFacts`, `Dashboard.BestSellingIsTopFive`.
- `Dashboard.LowStock` (components/admin/DashboardView.tsx:70-74): see `Dashboard.LowStockExact`.
- `CartPages.CartTotal` (pages/CartPage.tsx:21-24): see `CartPages.TotalConcat`, `CartPages.TotalIgnoresMissing`, `CartPages.TotalNonNegative`, `CartPages.CheckoutTotalIsCartTotal`.
- `Deals.DiscountPercent` (pages/DealsPage.tsx:20-22): see `Deals.DiscountPercentBounds`.
- `ChatView.Grouped` (components/admin/ChatView.tsx:133-150): see `ChatView.GroupMessages`, `ChatView.GroupingKeepsMessages`, `ChatView.DividersAnnounce`.
- `Catalogue.Matching` (pages/ProductsPage.tsx:92-109): see `Catalogue.ListingIsExact`, `Catalogue.ListedProductsPassEveryStage` and the stage rows.
- `Catalogue.SortBy` (pages/ProductsPage.tsx:112-124): see `Catalogue.SortByOrders`, `Catalogue.NewestPartitions`.
- `Header.Highlighted` (components/Header.tsx:36-61): see `Header.Highlight`, `Header.HighlightRoundTrip`.
- `HomePage.StackedNext` and `HomePage.StackedPrev` (pages/HomePage.tsx:197-198): see `HomePage.StackedMoves`.
- `QuickView.AfterChanges` (components/QuickViewModal.tsx:23-30): see `QuickView.ChangesStayInRange`.
- `ProductForm.SetImages` and `ProductForm.RemovedAsWritten` (components/admin/ProductFormModal.tsx:94-99): see `ProductForm.RemoveLastKeepsUrl`, `ProductForm.RemovalsAgree`.
- `ProductForm.Saved` (components/admin/ProductFormModal.tsx:115-139): see `ProductForm.SubmitSaves`, `ProductForm.EditRoundTrip`.

| member | source | states |
|---|---|---|
| Types.PageNamed | App.tsx:342-377 | the page a route name selects is the page of that name; a name no page has selects Home, as the switch's default case does |
| Types.PageNameRoundTrip | types.ts:96 | every page's route name leads back to that page |
| Types.FindById | pages/CartPage.tsx:18 | `find` by id, shared by the product, category, sub-category and conversation lookups: None exactly when no element has the id, otherwise the first element in order with that id |
| Types.IfConfirmed | components/admin/ProductsView.tsx:32-36 | a confirmed action goes through with its argument, and an unconfirmed one does nothing |
| Types.StatusFromText | types.ts:60 | stored status text reads as the status it names; any other text reads as Processing |
| Types.StatusTextRoundTrip | types.ts:60 | reading back a status's text gives that status |
| CartStore.Ids | stores/cartStore.ts:41 | one product id per cart line |
| CartStore.IdsConcat | stores/cartStore.ts:56 | the ids of two runs of lines are the two id lists joined |
| CartStore.GetAbsent | stores/cartStore.ts:41-44 | the quantity read for a product no line has is 0 |
| CartStore.GetPositive | stores/cartStore.ts:43-44 | in a cart of positive lines, a product with a line holds at least one unit |
| CartStore.PutIds | stores/cartStore.ts:105-108 | `Map.set` keeps the key order and appends a new key at the end |
| CartStore.PutGet | stores/cartStore.ts:108 | after `set`, the key holds the value set |
| CartStore.PutOther | stores/cartStore.ts:108 | `set` on one key leaves every other key's value unchanged |
| CartStore.PutThenGet | stores/cartStore.ts:108 | reading any key after `set`: the value set at that key, the old value at every other |
| CartStore.PutUnique | stores/cartStore.ts:105-110 | `set` keeps the ids distinct |
| CartStore.PutNew | stores/cartStore.ts:108 | `set` of an absent key appends a line at the end |
| CartStore.FromEntriesKeys | stores/cartStore.ts:105 | `new Map(entries)` has distinct ids, exactly those of the entries |
| CartStore.FromEntriesLastWins | stores/cartStore.ts:105 | when the database cart repeats an id, the map keeps the last quantity |
| CartStore.FromEntriesUnique | stores/cartStore.ts:105 | a database cart with distinct ids passes through the map unchanged |
| CartStore.AddAllKeys | stores/cartStore.ts:106-109 | adding the guest lines keeps the ids distinct; the ids are those of both carts |
| CartStore.AddAllSums | stores/cartStore.ts:106-109 | each product's quantity is the held quantity plus all its guest quantities |
| CartStore.Merge | stores/cartStore.ts:105-110 | the merged cart has distinct ids, exactly those of the database and guest carts |
| CartStore.MergeIsAdditive | stores/cartStore.ts:105-110 | the merged quantity of a product is its database quantity plus its guest quantities |
| CartStore.MergeAdditiveEverywhere | stores/cartStore.ts:105-110 | merging is additive for every product id at once |
| CartStore.MergeIntoEmpty | stores/cartStore.ts:104-111 | a guest cart with distinct ids merged into an empty database cart is adopted as it is |
| CartStore.AddAllIntoEmpty | stores/cartStore.ts:106-109 | adding distinct guest lines to an empty map gives those lines |
| CartStore.MergeCarts | stores/cartStore.ts:105-110 | the `forEach` loop over the guest cart computes the merge |
| CartStore.SetQuantity | stores/cartStore.ts:69-71 | the `map` that rewrites one line's quantity keeps the ids, sets that product's quantity, changes no other product, and keeps ids distinct and quantities positive |
| CartStore.Without | stores/cartStore.ts:76 | the `filter` removes exactly the product's lines, keeps every other quantity, distinctness and positivity, and never lengthens the cart |
| CartStore.WithoutIsFilter | stores/cartStore.ts:76 | removal is the filter by "not this product" |
| CartStore.WithoutIdempotent | stores/cartStore.ts:76 | removing a product twice is removing it once |
| CartStore.WithoutAbsent | stores/cartStore.ts:76 | removing a product the cart lacks changes nothing |
| CartStore.Cart.constructor | stores/cartStore.ts:22-24 | the store starts empty and uninitialised, with the stored guest cart as given |
| CartStore.AppendLine | stores/cartStore.ts:53-57 | a new product's line goes at the end: it reads back as its quantity, other products keep theirs, and distinct ids and positive lines are kept |
| CartStore.Cart.AddToCart | stores/cartStore.ts:35-60 | out of stock refuses; an existing line grows only while the sum stays within stock; a new line is appended only if the quantity is within stock; each refusal leaves the cart as it was and carries its message; success never exceeds stock and touches no other product |
| CartStore.Cart.UpdateQuantity | stores/cartStore.ts:61-74 | zero or less removes the line; above stock refuses and changes nothing; otherwise sets the quantity; no other product changes |
| CartStore.Cart.RemoveFromCart | stores/cartStore.ts:75-79 | the product's lines are gone and the rest is the filtered cart; the outcome is a success naming the product |
| CartStore.Cart.ClearCart | stores/cartStore.ts:80-87 | empties the cart; a signed-in user's remote cart is deleted, otherwise the stored guest cart is removed |
| CartStore.Cart.LoadGuestCart | stores/cartStore.ts:88-92 | the cart becomes the stored guest cart, or empty when none is stored |
| CartStore.Cart.MergeAndSyncCarts | stores/cartStore.ts:93-116 | a fetch error changes nothing; a non-empty guest cart is merged into the remote cart and the stored guest cart is removed; otherwise the remote cart is adopted |
| CartStore.Cart.InitializeCart | stores/cartStore.ts:26-34 | only the first call acts and the store ends initialised; on it a guest loads the stored cart, and a signed-in user gets the `MergeAndSyncCarts` outcome: nothing changes on a read error, a non-empty guest cart is merged and cleared, otherwise the remote cart is adopted |
| CartStore.StockLimitScenario | stores/cartStore.ts:35-74 | with stock 5: adding 3 succeeds, adding 3 more is refused, setting 5 succeeds, setting 6 is refused; the cart holds 3, 3, 5 and 5 units |
| CartStore.GuestSignInScenario | stores/cartStore.ts:26-34 | a first initialisation that already has a signed-in user and an empty remote cart adopts the guest cart and clears the stored copy |
| CartStore.LateSignInScenario | stores/cartStore.ts:26-34 | `isInitialized` is never reset, so a store first initialised for a guest keeps the guest cart, unmerged and still stored, when initialised again with a signed-in user |
| Catalogue.StageStep | pages/ProductsPage.tsx:92-109 | applying one more `filter` stage to the filtered list is filtering by all stages so far |
| Catalogue.StageSkipped | pages/ProductsPage.tsx:92-109 | a stage its guard switches off leaves the list as it was |
| Catalogue.CategoryStage | pages/ProductsPage.tsx:92-93 | a selected main category keeps exactly its products; none selected skips both category stages |
| Catalogue.SubCategoryStage | pages/ProductsPage.tsx:94-96 | ticked sub-categories keep exactly their products; none ticked skips the stage |
| Catalogue.PriceStage | pages/ProductsPage.tsx:99 | the price stage always runs and keeps prices within the range, both ends included |
| Catalogue.RatingStage | pages/ProductsPage.tsx:101-103 | a positive minimum rating keeps products rated at least that; 0 skips the stage |
| Catalogue.MaterialStage | pages/ProductsPage.tsx:105-109 | ticked materials keep products whose comma-separated, trimmed materials include one of them; none ticked skips the stage |
| Catalogue.SortByOrders | pages/ProductsPage.tsx:112-124 | each sort key gives a permutation of its input, ordered by price up, price down, rating down or new first; the default key keeps the order |
| Catalogue.NewestPartitions | pages/ProductsPage.tsx:119-120 | the stable "newest" sort puts the new products first and the rest after, each group in its original order |
| Catalogue.ApplyFilters | pages/ProductsPage.tsx:87-109 | the chain of `filter` reassignments keeps exactly the products that pass every active stage, in catalogue order |
| Catalogue.FilteredAndSorted | pages/ProductsPage.tsx:86-125 | a search query sorts the search ranking and ignores every filter; without one, the filtered catalogue is sorted |
| Catalogue.ListingIsExact | pages/ProductsPage.tsx:86-125 | without a query, a product is listed if and only if it is in the catalogue and passes every active stage |
| Catalogue.ListedProductsPassEveryStage | pages/ProductsPage.tsx:92-109 | a listed product satisfies each active condition: category, sub-categories, price range, rating and materials |
| Catalogue.SearchBypassesFilters | pages/ProductsPage.tsx:89-90 | with a search query, two filter settings that share a sort key give the same listing, a permutation of the ranking |
| Catalogue.CodeUnitOrderTotal | pages/ProductsPage.tsx:83 | the default `sort` order on strings, lexicographic on their UTF-16 code units (`Text.CodeUnits`), is total |
| Catalogue.UnitsLeqTotal | pages/ProductsPage.tsx:83 | any two code-unit sequences are comparable in lexicographic order |
| Catalogue.SurrogatesSortLow | pages/ProductsPage.tsx:83 | the sort compares code units, not characters: U+1F600 (D83D DE00) sorts before U+FF01 although it is the larger character |
| Catalogue.AvailableMaterials | pages/ProductsPage.tsx:76-84 | the sidebar's materials are exactly the trimmed comma-separated materials of the products, each once, in code-unit order |
| Catalogue.AddTokens | pages/ProductsPage.tsx:80 | adding one product's trimmed pieces to the `Set` keeps its members distinct and adds exactly those pieces |
| Catalogue.SortedSet | pages/ProductsPage.tsx:83 | `Array.from(set).sort()` has the set's members, each once, in code-unit order |
| Catalogue.Ceil | pages/ProductsPage.tsx:35 | `Math.ceil` gives the least integer at or above its argument |
| Catalogue.HighestPrice | pages/ProductsPage.tsx:35 | `Math.max` over the prices and 1000 bounds every price, is at least 1000, and is 1000 or some product's price |
| Catalogue.MaxPrice | pages/ProductsPage.tsx:35 | the slider's maximum is the highest price rounded up to a whole hundred: at least 1000, no price above it, less than 100 above the highest price |
| Catalogue.TotalPages | pages/ProductsPage.tsx:127 | the number of pages of 12 is the least that holds every product, and 0 for no products |
| Catalogue.PageOf | pages/ProductsPage.tsx:128-131 | a page holds at most 12 products: a full page is the matching slice of the listing, the last partial page is the rest of the listing, and a page past the end is empty |
| Catalogue.EveryProductHasAPage | pages/ProductsPage.tsx:127-131 | every listed product sits on a page between 1 and the page count, at the expected place |
| Catalogue.RelevantSubCategories | components/Sidebar.tsx:38-41 | no selected category shows no sub-categories; otherwise exactly the sub-categories of the selected category |
| Catalogue.RatingClick | components/Sidebar.tsx:57-64 | clicking the current minimum rating reports 0, and any other rating reports itself |
| Catalogue.RatingChange | pages/ProductsPage.tsx:143-147 | the page's setter turns the rating it receives off when it equals the previous one |
| Catalogue.RatingClickThenChange | components/Sidebar.tsx:57-64 | through both handlers, clicking the active rating clears it and any other rating selects it |
| Catalogue.Browse.constructor | pages/ProductsPage.tsx:32-41 | the page opens on the category it was given, no other filter, the full price range, the default sort and page 1 |
| Catalogue.Browse.CategoryPropChanged | pages/ProductsPage.tsx:44-48 | a new category from the app replaces the category, clears the sub-categories and returns to page 1 |
| Catalogue.Browse.MaxPriceChanged | pages/ProductsPage.tsx:50-52 | a new catalogue maximum resets the price range to the full range and keeps everything else |
| Catalogue.Browse.SelectCategory | pages/ProductsPage.tsx:158 | choosing a category in the sidebar replaces it, clears the sub-categories, returns to page 1 and clears the search |
| Catalogue.Browse.ToggleSubCategory | components/Sidebar.tsx:43-48 | a ticked sub-category is unticked and an unticked one appended; page 1 |
| Catalogue.Browse.ToggleMaterial | components/Sidebar.tsx:50-55 | a ticked material is unticked and an unticked one appended; page 1 |
| Catalogue.Browse.ChangePrice | pages/ProductsPage.tsx:162 | the new price range replaces the old; page 1 |
| Catalogue.Browse.ClickRating | pages/ProductsPage.tsx:143-147 | the rating toggles as through both handlers; page 1 |
| Catalogue.Browse.ChangeSort | pages/ProductsPage.tsx:185 | only the sort key changes; the page stays |
| Catalogue.Browse.GoToPage | pages/ProductsPage.tsx:222 | only the page changes |
| Catalogue.Browse.ClearFilters | pages/ProductsPage.tsx:64-74 | every filter and the sort return to their defaults with the full price range, page 1, and the search is cleared only when there is one |
| Catalogue.Browse.CurrentProducts | pages/ProductsPage.tsx:86-131 | the products shown are the current page of the listing, with the listing's page count |
| Seqs.Toggle | App.tsx:193-204 | toggling a present id removes every occurrence and keeps all other ids; toggling an absent id appends it |
| Seqs.ToggleTwiceFromAbsent | App.tsx:193-204 | toggling an absent id twice restores the list |
| App.RemoveMore | App.tsx:247-250 | filtering out one id set after another filters out their union |
| App.RemoveNothing | App.tsx:247-250 | filtering out no ids keeps the list |
| App.LinesWithout | App.tsx:248 | the cart store's `removeFromCart` is the filter of the cart lines by "not this product" |
| App.DeletedUnion | App.tsx:272-273 | the products deleted for a union of sub-categories are the union of those deleted for each |
| App.SucceededMembers | App.tsx:261 | the ids a `forEach` cascade deletes are exactly the visited ids whose own delete succeeds |
| App.ProductIdsIn | App.tsx:260 | the ids collected for a sub-category are exactly those of its products |
| App.SubCategoriesOf | App.tsx:272 | the sub-categories collected for a category are exactly those under it |
| App.DeletedOfOne | App.tsx:260-261 | the cascade over one sub-category's products deletes the products of that sub-category whose delete succeeds |
| App.SubCategoriesOfCategory | App.tsx:272-273 | the cascade over a category's sub-categories deletes those under it whose delete succeeds |
| App.UserOrders | App.tsx:340 | a signed-in user's history is exactly the orders carrying their id, in order; without a user it is empty |
| App.InitialWishlist | App.tsx:120-126 | a signed-in user gets the account's stored list or nothing; a guest gets the stored guest list or nothing; the two are never merged |
| App.Storefront.constructor | App.tsx:83-141 | the shell starts with empty lists on the home page, with no search, selection or notice |
| App.Storefront.LoadWishlist | App.tsx:120-126 | only the wishlist changes, to the list the load branch selects |
| App.Storefront.Navigate | App.tsx:162-170 | the page becomes the new page; the search query is cleared only when leaving the products page |
| App.Storefront.Search | App.tsx:183-186 | the query is stored and the products page shown |
| App.Storefront.SelectCategory | App.tsx:178-181 | the category is stored and the products page shown |
| App.Storefront.SelectProduct | App.tsx:173-176 | the product is selected and its detail page shown, clearing the search when leaving the products page |
| App.Storefront.ToggleWishlist | App.tsx:193-204 | the wishlist is toggled and the notice says whether the product was removed or added |
| App.Storefront.PlaceOrder | App.tsx:206-225 | the order sent is the submitted data with the current date and status Processing; a failed insert only sets the error notice; a stored order is prepended, the cart cleared, its id remembered and the confirmation page shown |
| App.Storefront.RemoveProduct | App.tsx:247-251 | the success branch of a product delete removes it from the catalogue, the cart lines and the wishlist, drops its reviews and names it in the notice |
| App.Storefront.DeleteProductFrom | App.tsx:240-253 | an id absent from the handler's product snapshot does nothing; a failed delete only reports; a successful one removes the product from the catalogue, cart and wishlist, drops its reviews and names it in the notice |
| App.Storefront.DeleteProduct | App.tsx:240-253 | deleting an unknown id or failing changes nothing; success removes the product, its cart lines, wishlist entries and reviews |
| App.Storefront.DeleteSubCategoryFrom | App.tsx:255-265 | a failed delete only reports; success deletes each snapshot product of the sub-category whose own delete succeeds, with its cart lines, wishlist entries and reviews, then drops the sub-category |
| App.Storefront.CascadeProducts | App.tsx:260-261 | the `forEach` over a sub-category's product ids removes exactly the visited products whose own delete succeeds, from the catalogue, cart, wishlist and reviews |
| App.Storefront.DeleteSubCategory | App.tsx:255-265 | the same cascade over the current products |
| App.Storefront.DeleteCategory | App.tsx:267-277 | a failed delete only reports; success cascades to each of its sub-categories whose delete succeeds and to their products, then drops the category |
| App.Storefront.CascadeSubCategories | App.tsx:272-273 | the `forEach` over a category's sub-categories drops those whose delete succeeds and the products of theirs whose delete succeeds |
| ContentEditor.FindIndex | components/admin/ContentView.tsx:228 | `findIndex`: -1 exactly when no section has the id, otherwise the first index holding it |
| ContentEditor.FindIndexAt | components/admin/ContentView.tsx:228 | `findIndex` returns a position holding the id when no earlier one holds it |
| ContentEditor.MovePermutes | components/admin/ContentView.tsx:226-235 | moving a section keeps the same sections, as a permutation |
| ContentEditor.SwapPermutes | components/admin/ContentView.tsx:233 | the destructuring swap of two slots is a permutation |
| ContentEditor.MoveSwapsNeighbours | components/admin/ContentView.tsx:226-235 | a move with a neighbour in range swaps the section with the one above or below and leaves all other slots alone |
| ContentEditor.MoveUpThenDown | components/admin/ContentView.tsx:226-235 | moving a section that is not first up and then down restores the order |
| ContentEditor.Apply | components/admin/ContentView.tsx:199-204 | merging an update into a section keeps its id and kind, sets the named field, and changes `enabled` only when that is the field updated |
| ContentEditor.UpdateWhere | components/admin/ContentView.tsx:199-204 | the `map` updates every section with the id and leaves every other section as it was, keeping ids and kinds |
| ContentEditor.UpdateMissing | components/admin/ContentView.tsx:199-204 | updating an id no section has changes nothing |
| ContentEditor.CategoryToggle | components/admin/ContentView.tsx:142-146 | the grid form's toggle sends new category ids: a ticked category is removed (every copy) with all other ids kept, an unticked one is appended |
| ContentEditor.CategoryToggleTwice | components/admin/ContentView.tsx:142-146 | ticking a category absent from the grid and then unticking it restores the section |
| ContentEditor.NewSection | components/admin/ContentView.tsx:206-217 | a new section of each kind has the fresh id, is enabled, and has that kind's defaults |
| ContentEditor.LinkTypeChosen | components/admin/ContentView.tsx:104 | choosing a link type sets it and resets the destination to the first page, `home`, or to the first category; nothing else in the banner changes |
| ContentEditor.ChangeBanner | components/admin/ContentView.tsx:116-120 | editing banner `i` merges the update into it and leaves the other banners alone |
| ContentEditor.RemoveBanner | components/admin/ContentView.tsx:125-127 | removing index `i` drops exactly that banner and shifts the later ones down; an index out of range changes nothing |
| ContentEditor.AddThenRemoveBanner | components/admin/ContentView.tsx:121-127 | adding a banner and removing the last one restores the list |
| ContentEditor.InitialInput | components/admin/ContentView.tsx:36 | the input type starts as file exactly when the image is a `data:image` upload |
| ContentEditor.InputSwitchWrite | components/admin/ContentView.tsx:51-58 | switching the input type clears the image exactly when the image does not suit the new type; it writes nothing else |
| ContentEditor.InputSwitchConsistent | components/admin/ContentView.tsx:51-58 | after a switch the image is empty or suits the chosen input type |
| ContentEditor.Editor.constructor | components/admin/ContentView.tsx:197 | the draft starts as the site content given |
| ContentEditor.Editor.MoveSection | components/admin/ContentView.tsx:226-235 | the find-and-swap on a copied array leaves the draft's sections as `Moved` describes |
| ContentEditor.Editor.UpdateSection | components/admin/ContentView.tsx:199-204 | only the sections change, to the mapped update |
| ContentEditor.Editor.AddSection | components/admin/ContentView.tsx:206-217 | the new section is appended at the end |
| ContentEditor.Editor.RemoveSection | components/admin/ContentView.tsx:219-224 | a confirmed removal drops every section with the id; an unconfirmed one changes nothing |
| ContentEditor.RemoveSectionExact | components/admin/ContentView.tsx:221 | after a removal the sections are exactly the others, in order |
| Dashboard.RevenueAppend | components/admin/DashboardView.tsx:20-24 | revenue starts at 0 and a new order adds its total exactly when it is delivered |
| Dashboard.CompletedCount | components/admin/DashboardView.tsx:84 | the completed-order count never exceeds the number of orders |
| Dashboard.CompletedCountAppend | components/admin/DashboardView.tsx:84 | the count starts at 0 and grows by one exactly for a delivered order |
| Dashboard.TallyCounts | components/admin/DashboardView.tsx:50-59 | the sales map holds each product once, under the units sold in delivered orders |
| Dashboard.AddOrderItems | components/admin/DashboardView.tsx:54-57 | the inner `forEach` over a delivered order's lines adds each line's quantity under its product id, as the guest-cart merge does |
| Dashboard.SalesTally | components/admin/DashboardView.tsx:50-59 | the nested `forEach` loops build the sales map the tally describes |
| Dashboard.SortedDescending | components/admin/DashboardView.tsx:61-62 | entries sorted by the comparator `b[1] - a[1]` have non-increasing quantities |
| Dashboard.FoundMembers | components/admin/DashboardView.tsx:64-67 | a seller is listed exactly when some entry's product is in the catalogue, paired with that product and that entry's units |
| Dashboard.FoundBelow | components/admin/DashboardView.tsx:64-67 | the lookup never raises units: a bound on every entry bounds every seller |
| Dashboard.FoundDescending | components/admin/DashboardView.tsx:61-67 | entries in non-increasing units give sellers in non-increasing units |
| Dashboard.FoundSold | components/admin/DashboardView.tsx:50-67 | sellers looked up from tally entries are catalogue products with the units they sold |
| Dashboard.TallyEntry | components/admin/DashboardView.tsx:50-59 | every entry of the sales map carries the units its product sold in delivered orders |
| Dashboard.BestSellingFacts | components/admin/DashboardView.tsx:50-68 | at most five best sellers, by non-increasing quantity, each a catalogue product with the units it sold |
| Dashboard.FoundListed | components/admin/DashboardView.tsx:64-68 | the lookup keeps exactly the entries whose product is found, in their order, each as the found product with the entry's units |
| Dashboard.BestSellingIsTopFive | components/admin/DashboardView.tsx:50-68 | the sellers are exactly the entries among the five most-sold tally entries (after the stable sort) whose product is in the catalogue, in sorted order with their units; every tally entry outside those five sold no more than any listed seller |
| Dashboard.OutsideTopSoldNoMore | components/admin/DashboardView.tsx:62-63 | cutting the descending list after five leaves out only entries that sold no more than any seller found among the first five |
| Dashboard.LowStockExact | components/admin/DashboardView.tsx:70-74 | the low-stock list is exactly the products with stock from 1 to 9, a permutation of the filtered catalogue, in non-decreasing stock |
| Header.WalkStep | components/Header.tsx:44-54 | one step of the `forEach` emits the gap before the range, the range, and hands on the position after it |
| Header.Highlight | components/Header.tsx:36-61 | the loop over the matched ranges builds exactly the pieces `Highlighted` describes |
| Header.HighlightStep | components/Header.tsx:44-54 | the pieces pushed so far plus the walk from range i are the pieces after that range's turn plus the walk from range i + 1 |
| Header.PushRange | components/Header.tsx:44-54 | one turn of the `forEach` pushes the gap before the range when it is not empty, then the range |
| Header.PushGap | components/Header.tsx:45-47 | a plain piece is pushed exactly when `lastIndex` is before the range's start |
| Header.RenderedConcat | components/Header.tsx:60 | the text of two runs of pieces is their texts joined |
| Header.StrongTextsConcat | components/Header.tsx:48-52 | the highlighted texts of two runs of pieces are their highlighted texts joined |
| Header.MarkTextsAt | components/Header.tsx:50 | the k-th range's highlighted text is `substring(start, end + 1)` of that range |
| Header.WalkHighlightsEachRange | components/Header.tsx:44-54 | the walk highlights every range, in order, and nothing else |
| Header.WalkRendersRest | components/Header.tsx:44-58 | over ordered, disjoint, in-bounds ranges, the pieces from a position on spell the rest of the text |
| Header.WalkPlainNonEmpty | components/Header.tsx:45-46 | no empty plain span is emitted |
| Header.HighlightRoundTrip | components/Header.tsx:36-61 | for ordered, disjoint, in-bounds ranges, the pieces spell the name exactly, no plain span is empty, and the highlighted pieces are the matched ranges |
| Header.PanelsFor | components/Header.tsx:185-187 | suggestions show when visible with a query whose `length` (in code units) is over one and some results; "no results" shows when visible with such a query and none; never both |
| Header.OneSurrogatePairIsTyped | components/Header.tsx:185-187 | one character beyond U+FFFF has `length` 2, so it opens the panels, while one ASCII letter does not |
| Header.SearchBox.constructor | components/Header.tsx:101-107 | an empty query, no suggestions, nothing open |
| Header.SearchBox.SearchChange | components/Header.tsx:158-170 | the query is stored; with a `length` (in code units) over one it shows the first five matches, otherwise it clears and hides them |
| Header.SearchBox.SearchSubmit | components/Header.tsx:148-156 | the panels close; a query with text submits its trimmed form and clears the box; a blank query submits nothing and stays |
| Header.SearchBox.SuggestionClick | components/Header.tsx:172-178 | the clicked product is selected and the box is emptied and closed |
| Header.SubmittedIsTrimmed | components/Header.tsx:152-153 | a submitted query is already trimmed and was not all white space |
| Deals.DealProducts | pages/DealsPage.tsx:58 | the deals are exactly the products with a truthy original price, in catalogue order |
| Deals.Step | pages/DealsPage.tsx:71-76 | one step of the `reduce` keeps the best or takes the current product, never a worse one, and takes the current product only for a strictly larger discount ratio |
| Deals.ReduceFinds | pages/DealsPage.tsx:71-76 | over deals only, the `reduce` ends on the first product with the largest discount ratio |
| Deals.BestDeal | pages/DealsPage.tsx:60-77 | no deal gives none; otherwise the banner shows a catalogue product on deal |
| Deals.BestDealIsFirstBest | pages/DealsPage.tsx:69-76 | the `reduce` from the first deal picks the first deal with the largest ratio |
| Deals.BestDealChoice | pages/DealsPage.tsx:60-77 | a pinned product that exists and is on deal wins; otherwise the first deal with the largest ratio is shown |
| Deals.Round | pages/DealsPage.tsx:21 | `Math.round` gives the integer within half of its argument, halves rounding up |
| Deals.DiscountPercentBounds | pages/DealsPage.tsx:20-22 | no original price gives 0%; a sale price between 0 and the original price gives 0 to 100%, and 0% when nothing is taken off |
| HomePage.CarouselProducts | pages/HomePage.tsx:24-35 | a carousel holds at most eight products of its kind, in catalogue order, and all of them when there are fewer than eight |
| HomePage.SaleCarouselIsDeals | pages/HomePage.tsx:30-31 | the sale carousel is the first eight products of the deals page |
| HomePage.HeroNext | pages/HomePage.tsx:64-66 | the next slide stays in range |
| HomePage.HeroPrev | pages/HomePage.tsx:68-70 | the previous slide stays in range |
| HomePage.HeroNextPrev | pages/HomePage.tsx:64-70 | next then previous, or previous then next, returns to the same slide |
| HomePage.HeroCarousel.constructor | pages/HomePage.tsx:40 | the carousel starts on slide 0 |
| HomePage.HeroCarousel.Next | pages/HomePage.tsx:64-66 | the arrow moves to the next slide, wrapping from the last to the first |
| HomePage.HeroCarousel.Prev | pages/HomePage.tsx:68-70 | the arrow moves to the previous slide, wrapping from the first to the last |
| HomePage.HeroCarousel.GoTo | pages/HomePage.tsx:60-62 | a dot selects its slide |
| HomePage.JsRem | pages/HomePage.tsx:197-198 | JavaScript's `%` by a positive number: the remainder lies strictly between minus and plus the divisor, has the dividend's sign, and is Euclidean for a non-negative dividend |
| HomePage.StackedMoves | pages/HomePage.tsx:197-198 | from a card in range, next and previous stay in range, undo each other and agree with the hero carousel's wrapping |
| HomePage.Wrap | pages/HomePage.tsx:197-198 | below twice the count, `%` subtracts the count at most once |
| HomePage.OffsetCases | pages/HomePage.tsx:209 | a card's offset is its distance behind the active card, counting round the end |
| HomePage.StackedCards | pages/HomePage.tsx:208-228 | offsets are distinct and in range; only the active card has offset 0, alone takes clicks and lies on top; a drawn card's z-index is the count minus its offset |
| HomePage.StackedCardAtOffset | pages/HomePage.tsx:208-212 | each of the first four offsets is drawn, by exactly one card |
| HomePage.StackedCarousel.constructor | pages/HomePage.tsx:193 | the stacked carousel starts on card 0 |
| HomePage.StackedCarousel.Next | pages/HomePage.tsx:197 | `handleNext` moves to the next card, wrapping |
| HomePage.StackedCarousel.Prev | pages/HomePage.tsx:198 | `handlePrev` moves to the previous card, wrapping |
| HomePage.CategoriesToShow | pages/HomePage.tsx:132 | the grid shows exactly the catalogue's categories whose id the section lists, in catalogue order |
| HomePage.Navigation | pages/HomePage.tsx:293-299 | a page link goes to the page it names, or home when it names none; a category link selects that category |
| HomePage.NavigationToNamedPage | pages/HomePage.tsx:293-299 | a page link holding a page's name goes to that page |
| ProductCard.SrcBase | components/ProductCard.tsx:29-35 | the base is the non-empty text before the last `/600/600` of a picsum URL; there is none when the host or the size is missing or the size stands at the start |
| ProductCard.SrcSet | components/ProductCard.tsx:29-38 | a `srcset` is produced exactly when a base exists |
| ProductCard.SrcBaseOfSquare | components/ProductCard.tsx:31-35 | a picsum URL ending in `/600/600` after a non-empty base gives that base back |
| ProductCard.SrcSetOfSquare | components/ProductCard.tsx:37 | such a URL gets the 300w, 600w and 900w candidates built on its base |
| ProductCard.SrcSetNeedsHost | components/ProductCard.tsx:31-32 | a URL not on picsum gets no `srcset` |
| ProductCard.StockFlags | components/ProductCard.tsx:104-105 | a card is never both out of stock and low on stock; for a non-negative stock, low means 1 to 9, as on the dashboard |
| ProductCard.Stars | components/ProductCard.tsx:96-102 | five stars; star `i` (from 1) is filled exactly when `i` is at most the average |
| ProductCard.RenderStars | components/ProductCard.tsx:96-102 | the `for` loop from 1 to 5 pushes exactly the five stars of `ProductCard.Stars` |
| ProductCard.Filled | components/ProductCard.tsx:99 | the filled count never exceeds the number of stars |
| ProductCard.StarsCount | components/ProductCard.tsx:96-102 | the card fills the floor of the average, clamped to 0 to 5 |
| ProductCard.CardClick | components/ProductCard.tsx:113 | clicking a card opens its product exactly when it is in stock |
| ProductCard.AddClick | components/ProductCard.tsx:91-94 | the card's add button asks for one unit of its product, and is there only when the product is in stock |
| QuickView.Clamped | components/QuickViewModal.tsx:23-30 | a sum below 1 becomes 1, a sum above the stock becomes the stock, any other sum is kept; with stock the result is within 1 and the stock |
| QuickView.ChangesStayInRange | components/QuickViewModal.tsx:23-30 | any run of quantity changes from a quantity in range stays within 1 and the stock |
| QuickView.StarRow | components/QuickViewModal.tsx:37-43 | the modal's five stars fill exactly as the card's do |
| QuickView.RenderStars | components/QuickViewModal.tsx:37-43 | the modal's `for` loop pushes exactly the stars of `QuickView.StarRow` |
| QuickView.Dialog.constructor | components/QuickViewModal.tsx:21 | the modal opens on its product with quantity 1 |
| QuickView.Dialog.ChangeQuantity | components/QuickViewModal.tsx:23-30 | the quantity becomes the clamped sum |
| QuickView.Dialog.AddToCart | components/QuickViewModal.tsx:32-35 | the modal asks for its product at the chosen quantity and closes |
| ProductDetail.Clamped | pages/ProductDetailPage.tsx:86 | `Math.max(1, Math.min(stock, q))` is never below 1, within the stock when there is stock, and keeps a sum in range |
| ProductDetail.ClampsAgree | pages/ProductDetailPage.tsx:86 | with stock the page's clamp and the modal's agree; at stock 0 the page gives 1 where the modal gives 0 |
| ProductDetail.FirstColor | pages/ProductDetailPage.tsx:46 | the first colour is preselected, or none when the product has no colours |
| ProductDetail.ShownImage | pages/ProductDetailPage.tsx:133 | the active image when its index is in range, otherwise the first image, and none without images |
| ProductDetail.DetailPage.constructor | pages/ProductDetailPage.tsx:44-46 | the page opens on image 0, quantity 1 and the first colour |
| ProductDetail.DetailPage.Show | pages/ProductDetailPage.tsx:75-83 | a new product resets the image, the quantity and the colour |
| ProductDetail.DetailPage.ChangeQuantity | pages/ProductDetailPage.tsx:86 | the quantity becomes the clamped sum, within 1 and the stock; nothing else changes |
| ProductDetail.DetailPage.SelectImage | pages/ProductDetailPage.tsx:162 | a thumbnail makes its image the one shown; nothing else changes |
| ProductDetail.DetailPage.SelectColor | pages/ProductDetailPage.tsx:183 | a colour button selects its colour; nothing else changes |
| ProductDetail.DetailPage.AddToCart | pages/ProductDetailPage.tsx:87-89 | the page asks for its product at the chosen quantity |
| ProductDetail.Breadcrumbs | pages/ProductDetailPage.tsx:115-122 | home, then the main category when it is found, then the sub-category and the product |
| ProductDetail.Specifications | pages/ProductDetailPage.tsx:126-131 | the brand row first, then a dimensions, weight or material row exactly when that field is truthy, each with its value, always in that order (brand, dimensions, weight, material) |
| ProductDetail.Stars | pages/ProductDetailPage.tsx:124 | five stars; star `i` (from 0) is filled exactly when `i` is below the average |
| ProductDetail.StarsCount | pages/ProductDetailPage.tsx:124 | the page fills the ceiling of the average, clamped to 0 to 5: one more star than the card for a fractional average, the same for a whole one |
| ProductDetail.ReviewFor | pages/ProductDetailPage.tsx:100-113 | only a signed-in user posts a review; it carries the product, the user, the rating and the text, and the user's name or the anonymous default, never empty |
| ProductForm.InitialForm | components/admin/ProductFormModal.tsx:18-29 | a new product's form is blank, with one blank image slot, price and stock 0, and the first sub-category preselected when there is one |
| ProductForm.FormOf | components/admin/ProductFormModal.tsx:35-48 | editing copies the product's fields, with absent dimensions and material as empty text and a blank image slot when it has no images |
| ProductForm.Written | components/admin/ProductFormModal.tsx:61-65 | writing one field of image `i` changes that field only and leaves the other images alone |
| ProductForm.RemoveLastKeepsUrl | components/admin/ProductFormModal.tsx:94-99 | as written, clearing the only image slot keeps its URL, because the second write starts from the stale images and only clears the alt text |
| ProductForm.Removed | components/admin/ProductFormModal.tsx:94-105 | removing the only image leaves one blank slot; otherwise exactly the chosen image is dropped and the rest keep their order |
| ProductForm.RemovalsAgree | components/admin/ProductFormModal.tsx:94-105 | with two or more images the corrected removal is the source's; with one it differs only in clearing the URL |
| ProductForm.Editor.constructor | components/admin/ProductFormModal.tsx:31-54 | the form is the product's when editing and the blank form otherwise; every image input starts as a URL input |
| ProductForm.Editor.ChangeImage | components/admin/ProductFormModal.tsx:61-65 | only the chosen field of the chosen image changes |
| ProductForm.Editor.ChangeInputType | components/admin/ProductFormModal.tsx:67-72 | the slot's input type changes and its URL is cleared |
| ProductForm.Editor.AddImageField | components/admin/ProductFormModal.tsx:86-92 | a blank image slot and a URL input are appended |
| ProductForm.Editor.RemoveImageField | components/admin/ProductFormModal.tsx:94-105 | the images become the corrected removal, and the slot's input type goes with it unless it was the last slot |
| ProductForm.TextOrAbsent | components/admin/ProductFormModal.tsx:137-138 | `x \|\| undefined` on text: empty text becomes absent, any other text is kept |
| ProductForm.NumberOrAbsent | components/admin/ProductFormModal.tsx:135-136 | `x \|\| undefined` on a number: absent or 0 becomes absent, any other number is kept |
| ProductForm.Submit | components/admin/ProductFormModal.tsx:107-147 | an unknown sub-category is refused first, then a form with no image having both a URL and an alt text; otherwise a new product is added, or the edited product updated |
| ProductForm.SubmitSaves | components/admin/ProductFormModal.tsx:115-139 | a saved product has exactly the usable images, the chosen sub-category and the form's fields; a new one gets the fresh id, the slug of its name, no ratings, the new flag and no colours; an edited one keeps its id, slug, ratings, flags and colours |
| ProductForm.EditRoundTrip | components/admin/ProductFormModal.tsx:35-147 | opening a well-formed product and saving it unchanged updates it to itself |
| CategoryForm.InputMode | components/admin/CategoryFormModal.tsx:26-30 | the input type is file exactly for a `data:image` upload, as in the banner editor |
| CategoryForm.Editor.constructor | components/admin/CategoryFormModal.tsx:14-35 | editing copies the category's name and image with the matching input type; a new form is blank with a URL input |
| CategoryForm.Editor.Submit | components/admin/CategoryFormModal.tsx:54-69 | an update exactly when editing; the id is the edited one when it is non-empty, else the fresh one; the slug is the name's slug; name and image are the form's |
| SubCategoryForm.InitialMain | components/admin/SubCategoryFormModal.tsx:17-20 | the main category is the one given, else the edited one's, else the first category, else empty |
| SubCategoryForm.Editor.constructor | components/admin/SubCategoryFormModal.tsx:17-29 | editing copies the name and main category; a new form has an empty name and the initial main category |
| SubCategoryForm.Editor.Submit | components/admin/SubCategoryFormModal.tsx:36-52 | an update exactly when editing; the id is the edited one when non-empty, else the fresh one; the slug is the name's slug; name and main category are the form's |
| Text.TrimShape | components/Header.tsx:152 | `trim` removes exactly the white space at both ends: the result is a slice of the input whose ends are not white space |
| Text.TrimStartShape | components/Header.tsx:152 | the white space dropped at the front is all white space and what is left does not start with it |
| Text.TrimEndShape | components/Header.tsx:152 | the white space dropped at the back is all white space and what is left does not end with it |
| Text.TrimEmptyIffAllSpace | components/Header.tsx:152 | the trimmed text is empty exactly when the text is all white space |
| Text.Lower | components/admin/CategoryFormModal.tsx:59 | `toLowerCase` maps each capital letter A to Z to its small letter and keeps every other character |
| Text.Substring | components/Header.tsx:46 | `substring` clamps both ends to the text and swaps them when they are reversed |
| Text.CodeUnitsOf | components/ReviewForm.tsx:20 | a character is one code unit below U+10000 and otherwise a high surrogate (D800-DBFF) then a low one (DC00-DFFF) |
| Text.CodeUnitsRoundTrip | components/ReviewForm.tsx:20 | the code units of a character decode back to it |
| Text.CodeUnitsConcat | components/ReviewForm.tsx:20 | the code units of joined texts are the joined code units |
| Text.JsLengthBounds | components/ReviewForm.tsx:20 | `length` lies between the number of characters and twice it, and equals it exactly when no character is beyond U+FFFF |
| Text.JsLengthSlice | components/ReviewForm.tsx:20 | a slice has no greater `length` than its text |
| Text.LastIndexOf | components/ProductCard.tsx:34 | `lastIndexOf` gives the last place the pattern occurs, or -1 |
| Text.Split | pages/ProductsPage.tsx:80 | `split` gives at least one piece and no piece holds the separator |
| Text.JoinSplit | pages/ProductsPage.tsx:80 | joining the pieces with the separator gives back the text |
| Text.SplitMany | components/admin/ChatView.tsx:13 | there is more than one piece exactly when the separator occurs |
| Text.Slug | components/admin/CategoryFormModal.tsx:59 | `toLowerCase().replace(/\s+/g, '-')` leaves no white space and never lengthens the name |
| Text.DashSpacesJoinsWords | components/admin/CategoryFormModal.tsx:59 | a run of white space between two words becomes one dash |
| Text.DashSpacesFromGap | components/admin/CategoryFormModal.tsx:59 | a run of white space before a word becomes one dash |
| Text.SlugOfOneWord | components/admin/CategoryFormModal.tsx:59 | a name without white space is only lowered |
| BestsellersView.Partition | components/admin/BestsellersView.tsx:14-25 | the `forEach` loop splits the products into the bestsellers and the others, each in catalogue order |
| BestsellersView.PartitionCounts | components/admin/BestsellersView.tsx:14-25 | together the two lists hold every product exactly as often as the catalogue does |
| BestsellersView.PartitionCovers | components/admin/BestsellersView.tsx:14-25 | the split is a partition into two subsequences of the catalogue; a product is in the first list exactly when it is flagged and in the second exactly when it is not |
| BestsellersView.DefaultChoice | components/admin/BestsellersView.tsx:28-34 | the picker preselects the first non-bestseller, or nothing when there is none |
| BestsellersView.AddBestseller | components/admin/BestsellersView.tsx:36-42 | adding requires a chosen id of a catalogue product, and sends that product flagged as a bestseller |
| BestsellersView.RemoveBestseller | components/admin/BestsellersView.tsx:44-49 | removing sends the catalogue product unflagged, and nothing for an unknown id |
| BestsellersView.AddThenRemove | components/admin/BestsellersView.tsx:36-49 | an added product carries the chosen id and the flag; removing it gives the same product unflagged; only the flag differs from the catalogue's product |
| OrdersView.Filtered | components/admin/OrdersView.tsx:27 | "All" lists every order; a status lists exactly the orders with that status, in order |
| OrdersView.BadgeFor | components/admin/OrdersView.tsx:12-21 | a known status shows its own badge, and any other text the Processing badge |
| OrdersView.StatusChange | components/admin/OrdersView.tsx:79-88 | choosing an option asks to move the order to the status the option names |
| OrdersView.DeleteRequest | components/admin/OrdersView.tsx:29-33 | an order is deleted only after confirmation, and then by its id |
| ProductsView.Filtered | components/admin/ProductsView.tsx:38-44 | a product is listed exactly when its lowered name includes the lowered query and it is in the chosen main category or "all" is chosen; catalogue order is kept |
| ProductsView.EmptyQueryListsAll | components/admin/ProductsView.tsx:38-44 | with no query and "all" categories every product is listed |
| ProductsView.View.constructor | components/admin/ProductsView.tsx:17-18 | the list opens with the modal closed and nothing being edited |
| ProductsView.View.OpenModal | components/admin/ProductsView.tsx:22-25 | the modal opens on the product given, or on a new product |
| ProductsView.View.CloseModal | components/admin/ProductsView.tsx:27-30 | the modal closes and forgets the product |
| ProductsView.DeleteRequest | components/admin/ProductsView.tsx:32-36 | a product is deleted only after confirmation, and then by its id |
| ReviewsView.Filtered | components/admin/ReviewsView.tsx:29-31 | rating 0 lists every review; any other rating lists exactly the reviews with that rating, in order |
| ReviewsView.ProductLabel | components/admin/ReviewsView.tsx:72 | the product's name, or "unknown product" when the product is missing or its name is empty; never empty |
| ReviewsView.Stars | components/admin/ReviewsView.tsx:76 | five stars per review |
| ReviewsView.StarsCount | components/admin/ReviewsView.tsx:76 | a rating from 0 to 5 fills exactly that many stars |
| ReviewsView.StarsAsOnProductPage | components/admin/ReviewsView.tsx:76 | the review list's stars are the product page's for the same rating |
| ReviewsView.DeleteRequest | components/admin/ReviewsView.tsx:21-25 | a review is deleted only after confirmation, and then by its id |
| OrdersHistory.Render | pages/OrdersHistoryPage.tsx:35-71 | no orders shows the empty view; otherwise every order has a row, in the order given |
| OrdersHistory.UnknownStatusBadge | pages/OrdersHistoryPage.tsx:14-23 | the history page's badge is the admin list's, and unknown status text gets the Processing badge |
| OrdersHistory.Toggled | pages/OrdersHistoryPage.tsx:81 | the details button collapses its order when it is expanded and otherwise expands it alone |
| OrdersHistory.ToggleTwice | pages/OrdersHistoryPage.tsx:81 | pressing the same button twice returns to the start |
| OrdersHistory.AtMostOneExpanded | pages/OrdersHistoryPage.tsx:100 | two expanded rows belong to the same order id; this holds because the page keeps a single `expandedOrderId` |
| OrdersHistory.HistoryPage.constructor | pages/OrdersHistoryPage.tsx:26 | the page opens with nothing expanded |
| OrdersHistory.HistoryPage.ToggleDetails | pages/OrdersHistoryPage.tsx:81 | the expanded order becomes the toggled one |
| OrdersHistory.CancelRequest | pages/OrdersHistoryPage.tsx:86-96 | the cancel link exists exactly for an order being prepared, and asks to cancel that order |
| OrdersHistory.NoCancelAfterProcessing | pages/OrdersHistoryPage.tsx:86-96 | shipped, delivered and cancelled orders cannot be cancelled |
| OrdersHistory.LineOf | pages/OrdersHistoryPage.tsx:106-117 | a line always shows its quantity; when `find` locates the product it also shows that product's name, price and first image url, and otherwise nothing else |
| OrdersHistory.OrderLines | pages/OrdersHistoryPage.tsx:106-117 | an expanded order has one line per item, in order |
| OrdersHistory.MissingProductLine | pages/OrdersHistoryPage.tsx:106-117 | an item whose product has left the catalogue still has a line, with its quantity only |
| ReviewForm.Problem | components/ReviewForm.tsx:14-23 | a missing rating is reported first; then a trimmed text whose `length` (in UTF-16 code units) is under ten; otherwise there is no error |
| ReviewForm.SurrogatePairsCountTwice | components/ReviewForm.tsx:20 | five characters beyond U+FFFF have `length` 10 and pass the length check |
| ReviewForm.PaddingDoesNotCount | components/ReviewForm.tsx:20 | white space around a short text does not make it long enough |
| ReviewForm.Form.constructor | components/ReviewForm.tsx:10-12 | the form opens with no rating, no text and no error |
| ReviewForm.Form.SetRating | components/ReviewForm.tsx:10 | the star picker sets the rating only |
| ReviewForm.Form.SetText | components/ReviewForm.tsx:11 | the text area sets the text only |
| ReviewForm.Form.Submit | components/ReviewForm.tsx:14-28 | a rejected form keeps its input and shows the error; an accepted one sends the rating and the untrimmed text, clears the error and starts over |
| Related.RelatedProducts | components/RelatedProducts.tsx:25-32 | no current product gives nothing; otherwise at most eight catalogue products in catalogue order, each of the current product's main category and not the current product, and all of them whenever fewer than eight are shown |
| Related.NeverSelf | components/RelatedProducts.tsx:30 | no related product carries the current product's id |
| Related.RelatedSection | components/RelatedProducts.tsx:60-62 | the section is rendered exactly when there is at least one related product |
| Related.WishlistProducts | pages/WishlistPage.tsx:29 | a product is shown exactly when it is in the catalogue and its id is wished for; catalogue order is kept |
| Related.WishlistOrderIrrelevant | pages/WishlistPage.tsx:29 | two wishlists holding the same ids show the same products |
| Related.WishlistRepeatsAndStrays | pages/WishlistPage.tsx:29 | a repeated id, or an id the catalogue lacks, changes nothing on the page |
| Related.WishlistPage | pages/WishlistPage.tsx:41-69 | the empty view exactly when no catalogue product is wished for; otherwise one card per shown product, each marked as in the wishlist |
| CartPages.LineAmount | pages/CartPage.tsx:21-24 | a line adds its product's price times its quantity, or nothing when the product is missing |
| CartPages.TotalConcat | pages/CartPage.tsx:21-24 | the total of two runs of lines is the sum of their totals |
| CartPages.TotalIgnoresMissing | pages/CartPage.tsx:21-24 | the total equals the total of the lines whose product is still in the catalogue |
| CartPages.TotalNonNegative | pages/CartPage.tsx:21-24 | with non-negative prices and quantities the total is never negative |
| CartPages.LineFor | pages/CartPage.tsx:68-96 | a line's amount is price times quantity; it is at the maximum, and its + button is disabled, exactly when the quantity has reached the stock; - asks for one less, + for one more, never past the stock |
| CartPages.CartLines | pages/CartPage.tsx:65-67 | the shown lines are the cart lines whose product is known, in cart order, each with its catalogue product and its buttons |
| CartPages.CartLinesCover | pages/CartPage.tsx:65-67 | every shown line is a cart line, and every cart line whose product is known is shown |
| CartPages.DecrementFromOneRemoves | pages/CartPage.tsx:86 | - on a single unit asks for 0, and removing a line leaves no line of that product |
| CartPages.CartPage | pages/CartPage.tsx:31-48 | an empty cart shows the empty view; otherwise the known lines and the total of the whole cart |
| CartPages.AllMissingCart | pages/CartPage.tsx:31-67 | a non-empty cart whose products have all left the catalogue shows an empty table and a zero total |
| CartPages.PlaceOrder | pages/CheckoutPage.tsx:44-58 | an order is placed exactly when name, address and phone are all non-empty; it carries the cart unchanged, the cart's total, the fields, the payment method and the user's id exactly when signed in |
| CartPages.CheckoutTotalIsCartTotal | pages/CheckoutPage.tsx:33-36 | the checkout's total is the cart page's total |
| CartPages.CheckoutForm.constructor | pages/CheckoutPage.tsx:17-20 | the form opens empty, with cash on delivery |
| CartPages.CheckoutForm.Prefill | pages/CheckoutPage.tsx:22-27 | a signed-in user's full name and phone fill their fields, empty where missing; the address and payment are untouched |
| CartPages.CheckoutForm.SetAddress | pages/CheckoutPage.tsx:18 | typing the address changes nothing else |
| CartPages.CheckoutForm.Submit | pages/CheckoutPage.tsx:44-58 | submitting asks for the order `PlaceOrder` describes from the form's fields, or for nothing |
| CartPages.Checkout | pages/CheckoutPage.tsx:61-74 | an empty cart shows the page with no form; otherwise the form with the cart's total |
| ChatView.Initials | components/admin/ChatView.tsx:11-17 | an avatar shows one or two characters, and the fallback letter for an empty name |
| ChatView.InitialsOfFullName | components/admin/ChatView.tsx:12-14 | a name with several words and no empty first or last word shows the first letters of its first and last words |
| ChatView.InitialsFallback | components/admin/ChatView.tsx:16 | a one-word name, or one starting or ending with a space, shows its first two characters |
| ChatView.SortedConversations | components/admin/ChatView.tsx:93-96 | the inbox lists the same conversations, newest last message first |
| ChatView.MostRecentFirst | components/admin/ChatView.tsx:93-96 | the first listed conversation has the latest last message of all |
| ChatView.SortedPrefix | components/admin/ChatView.tsx:93-96 | in the sorted inbox the first conversation is no older than any later one |
| ChatView.AutoSelected | components/admin/ChatView.tsx:98-106 | on a wide screen with nothing selected and a non-empty inbox, the newest conversation is selected; otherwise nothing changes |
| ChatView.MarkOnSelect | components/admin/ChatView.tsx:112-118 | selecting a conversation marks it read exactly when it exists and has unread customer messages |
| ChatView.SendRequest | components/admin/ChatView.tsx:120-126 | a message is sent exactly when the trimmed draft is non-empty and a conversation is selected; it is the trimmed draft, from the admin, to that conversation |
| ChatView.SentIsTrimmed | components/admin/ChatView.tsx:122-123 | a sent message neither starts nor ends with white space |
| ChatView.Inbox.constructor | components/admin/ChatView.tsx:82-83 | nothing selected and an empty draft |
| ChatView.Inbox.AutoSelect | components/admin/ChatView.tsx:98-106 | the auto-selected conversation becomes the selection and is marked read exactly when it has unread messages |
| ChatView.Inbox.Select | components/admin/ChatView.tsx:112-118 | the chosen id becomes the selection, with the mark-read request `MarkOnSelect` gives |
| ChatView.Inbox.SetDraft | components/admin/ChatView.tsx:83 | typing changes only the draft |
| ChatView.Inbox.Send | components/admin/ChatView.tsx:120-126 | sends what `SendRequest` gives and clears the draft only when something was sent |
| ChatView.SelectedMessages | components/admin/ChatView.tsx:128-131 | exactly the messages of the selected conversation, in order; none when nothing is selected |
| ChatView.GroupMessages | components/admin/ChatView.tsx:133-150 | the `forEach` loop builds the grouped list: a day divider before the first message of each new day, then the message |
| ChatView.BubblesConcat | components/admin/ChatView.tsx:133-150 | the messages of two runs of entries are those of each run in turn |
| ChatView.GroupingKeepsMessages | components/admin/ChatView.tsx:133-150 | the grouped list shows every selected message exactly once, in order |
| ChatView.DividersAnnounce | components/admin/ChatView.tsx:137-147 | a non-empty chat starts with a divider for its first message, and every divider is followed by the message whose day it announces |
| Seqs.Filter | pages/WishlistPage.tsx:29 | `Array.prototype.filter`: an element is kept exactly when it is in the input and passes the test, never lengthening the list |
| Seqs.FilterIsSubsequence | pages/WishlistPage.tsx:29 | `filter` keeps the input's order: its result is a subsequence of the input |
| Seqs.FilterAll | pages/ProductsPage.tsx:95 | a test every element passes keeps the whole list |
| Seqs.FilterNone | pages/ProductsPage.tsx:95 | a test no element passes gives the empty list |
| Seqs.FilterConcat | pages/ProductsPage.tsx:95 | filtering a concatenation filters each part |
| Seqs.FilterSnoc | pages/ProductsPage.tsx:95 | one more element at the end is kept exactly when it passes the test |
| Seqs.FilterFilter | pages/ProductsPage.tsx:95 | two filters in a row are one filter by both tests |
| Seqs.FilterExt | pages/ProductsPage.tsx:95 | two tests that agree on the list's elements filter it alike |
| Seqs.Slice | pages/ProductsPage.tsx:128 | `Array.prototype.slice`: both ends clamped to the list, an empty result when they cross, otherwise the elements between them |
| Seqs.Take | pages/HomePage.tsx:27 | `slice(0, n)`: a prefix of the list, of length n or the whole list when shorter |
| Seqs.RemoveAll | components/admin/ContentView.tsx:142-144 | removing a value leaves every other element and no copy of the value |
| Seqs.RemoveAllIdempotent | components/admin/ContentView.tsx:142-144 | removing a value twice is removing it once |
| Seqs.Sort | pages/ProductsPage.tsx:114-120 | `Array.prototype.sort` with a comparator: a permutation of the input |
| Seqs.InsertPermutes | pages/ProductsPage.tsx:114-120 | inserting one element into the sorted part adds it and loses none |
| Seqs.SortSorted | pages/ProductsPage.tsx:114-120 | with a total comparator the sorted list is in order and holds the same elements |
| Seqs.SortPartitions | pages/ProductsPage.tsx:120 | a stable sort by a two-valued key puts the elements with the key first, each group in its original order |
| Text.TrimIdempotent | components/admin/ChatView.tsx:122-123 | trimming a trimmed text changes nothing |
| Text.LowerIdempotent | components/admin/ProductsView.tsx:40 | lowering a lowered text changes nothing |
| Text.IncludesIffOccurs | components/admin/ProductsView.tsx:40 | `includes` holds exactly when the pattern occurs at some position |
| Text.SplitLast | components/admin/ChatView.tsx:14 | the last piece of a split is the text after the last separator |
| Text.DashSpaces | components/admin/CategoryFormModal.tsx:59 | `replace(/\s+/g, '-')` leaves no white space and never lengthens the text |
| Text.DashSpacesNoSpace | components/admin/CategoryFormModal.tsx:59 | a text without white space is left as it is |

## Left out

- Fuzzy search (Fuse.js, components/Header.tsx:111-120 and pages/ProductsPage.tsx:54-62) is an outside library; its ranked result for a query is a parameter of the search box and of the catalogue listing.
- Database and local-storage calls (App.tsx:83-151 and the reads and writes of stores/cartStore.ts) are not modelled as calls: what they return (rows, insert success, a stored guest cart) is a parameter, and what they would write is an out-parameter or a field.
- The cart persistence subscriber (stores/cartStore.ts:121-134), which writes the items to the remote cart or to local storage after every change, is not modelled: `CartStore.Cart.guestSlot` changes only where the store itself writes it.
- Timers and animation: the toast timeout, the hero carousel's auto-advance (it takes the same step as `HomePage.HeroNext`), page-loading delays and scrolling are not modelled; toasts appear only as outcome tags.
- Asynchrony: every awaited call (a database request, `mergeAndSyncCarts`) is taken to finish where it is called, and calls started in a loop to finish in the order they were started. Interleavings are not modelled. The state updates of the delete cascades are filters, which give the same result in any order, but two of the modelled outcomes depend on this timing:
- `App.Storefront.DeleteSubCategoryFrom`, `App.Storefront.DeleteCategory`: the final notice is stated as the sub-category's (category's) success toast. In the source the cascade's product and sub-category deletes are not awaited (App.tsx:261, 273), so that toast is raised first and each cascaded delete raises its own toast when it completes; when the cascade touched anything, the last toast shown is one of those.
- `CartStore.Cart.InitializeCart`: runs atomically. In the source `isInitialized` is set only after `await mergeAndSyncCarts` (stores/cartStore.ts:27-33), and the App effect that calls it re-runs when the user changes (App.tsx:118, 141), so two overlapping first calls can both merge; the model rules that out.
- `salesLast7Days` (components/admin/DashboardView.tsx:26-48) depends on the clock and the locale and is not modelled.
- Date and time formatting in the chat and order pages is not modelled; the chat's calendar day is a parameter `day: int -> string` of the grouping.
- `Date.now()` ids in the content editor and the form modals are parameters.
- Floating point: prices, totals and ratings are Dafny reals, so `toFixed`, float rounding and `parseFloat` in the product form's `handleChange` (components/admin/ProductFormModal.tsx:56-59) are not modelled.
- `window.confirm` is a boolean parameter (`Types.IfConfirmed`).
- `toLowerCase` lowers only A to Z: Arabic has no case, and other scripts are not modelled.
- White space for `trim` and `\s` is a fixed character set (`Text.IsSpace`).
- Text is a sequence of Unicode scalar values, one `char` each, while JavaScript strings are sequences of UTF-16 code units. `length` (`Text.JsLength`) and the default `sort` order (`Catalogue.CodeUnitLeq`) are computed on the UTF-16 encoding (`Text.CodeUnits`). Every index-based operation (`substring`, `lastIndexOf`, `str[0]`, the highlight ranges of `Header.Highlight`, `ChatView.Initials`) counts characters, so for text with characters beyond U+FFFF its indices differ from JavaScript's, and a lone surrogate half (which `name.substring(0, 2)` or `names[0][0]` can produce) cannot be represented.
- `ChatView.Initials`: takes the first one or two characters, where the source takes code units; the two agree when the name has no character beyond U+FFFF.
- `Header.Highlight`: the fuzzy matcher's ranges are taken as character positions, where the source's are code-unit positions; the two agree when the name has no character beyond U+FFFF.
- The product page's review fetch (pages/ProductDetailPage.tsx:58-73) is I/O; its rows are a parameter.
- `handleAddReview`, order and review deletion, the order status update and the order cancellation call in App.tsx (227-237 and the admin and history callbacks at 356-371) are outside the modelled App rules; the components' side of each (which id, which status, only after confirmation) is modelled.
- Presentation-only components, the chat client widgets, mobile layout switches and the auth page are not modelled; the chat inbox's mobile check is a boolean parameter.
- A sorted copy leaving the input untouched (`[...conversations].sort`) holds trivially: the model works on values.
- `HomePage.JsRem`: for a negative dividend it states only the sign and the bound of the remainder, not the identity with truncated division.
- `ContentEditor.LinkTypeChosen`: requires at least one category when the category link type is chosen; the source reads `allCategories[0].id` and would throw on an empty list.
- `OrdersView.StatusChange`: requires one of the four offered option values, since the select offers no other.
- `OrdersHistory.LineOf`: a product with no image has no image url; the source reads `images[0].url` and would throw.
- `CartPages.CheckoutForm.Submit`: requires a non-empty cart, because the form is rendered only then.
- `CartStore.Cart.AddToCart`: keeps quantities positive only for a positive quantity; the source does not check the quantity's sign.

## Findings

| source | as written | input that shows it | evidently intended | confidence | as-written member | corrected member |
|---|---|---|---|---|---|---|
| components/admin/ProductFormModal.tsx:94-99 | with one image left, `removeImageField` calls `handleImageChange` twice; both calls copy `formData.images` from the same render, so the second write (clearing the alt text) replaces the first (clearing the url) | a form with the single image `{url: "x", alt: "y"}`: the field becomes `{url: "x", alt: ""}` | the last image field is cleared to `{url: "", alt: ""}` | not executed | ProductForm.RemoveLastKeepsUrl | ProductForm.Removed |

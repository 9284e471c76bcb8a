/** The application shell (App.tsx): the state it holds and the handlers
    that change it. Database calls are not made here: whether an insert or
    a delete succeeded, and what it returned, are arguments of the handler. */
module App {
  import opened Types
  import opened Seqs
  import CartStore

  /** The toasts the handlers raise, as tags. */
  datatype Notice =
    | WishlistRemoved | WishlistAdded
    | OrderFailed
    | ProductDeleteFailed | ProductDeleted(name: string)
    | SubCategoryDeleteFailed | SubCategoryDeleted
    | CategoryDeleteFailed | CategoryDeleted

  // --- Removal by id, as the handlers' `filter` calls ---

  function ProductKey(p: Product): string { p.id }
  function ReviewKey(r: Review): string { r.productId }
  function LineKey(l: CartItem): string { l.productId }
  function SubCategoryKey(sc: SubCategory): string { sc.id }
  function CategoryKey(c: Category): string { c.id }
  function Ident(x: string): string { x }

  /** `x => !ids.has(key(x))`; with a single id this is `x => key(x) !== id`. */
  function Outside<T>(key: T -> string, ids: set<string>): T -> bool
  {
    (x: T) => key(x) !in ids
  }

  /** Removing one set of ids and then another removes their union. */
  lemma RemoveMore<T(!new)>(s: seq<T>, key: T -> string, a: set<string>, b: set<string>)
    ensures Filter(Filter(s, Outside(key, a)), Outside(key, b)) == Filter(s, Outside(key, a + b))
  {
    FilterFilter(s, Outside(key, a), Outside(key, b), Outside(key, a + b));
  }

  lemma RemoveNothing<T(!new)>(s: seq<T>, key: T -> string)
    ensures Filter(s, Outside(key, {})) == s
  {
    FilterAll(s, Outside(key, {}));
  }

  /** The ids of the products deleted when the sub-categories `subIds` go:
      those of the snapshot in one of them whose own delete succeeds. */
  ghost function Deleted(snapshot: seq<Product>, subIds: set<string>, productOk: string -> bool): set<string>
  {
    set p | p in snapshot && p.subCategory.id in subIds && productOk(p.id) :: p.id
  }

  /** Deleting by the sub-categories `a` and then by `b` deletes by both. */
  lemma DeletedUnion(snapshot: seq<Product>, a: set<string>, b: set<string>, productOk: string -> bool)
    ensures Deleted(snapshot, a + b, productOk) == Deleted(snapshot, a, productOk) + Deleted(snapshot, b, productOk)
  {
  }

  /** The sub-categories of a category whose own delete succeeds. */
  ghost function SubCategoriesDeleted(scs: seq<SubCategory>, categoryId: string, subCategoryOk: string -> bool): set<string>
  {
    set sc | sc in scs && sc.mainCategoryId == categoryId && subCategoryOk(sc.id) :: sc.id
  }

  /** The keys of `s` whose own delete succeeds, gathered left to right as
      the cascades visit them. */
  ghost function Succeeded<T>(s: seq<T>, key: T -> string, ok: string -> bool): set<string>
    decreases |s|
  {
    if s == [] then {}
    else
      var last := key(s[|s| - 1]);
      Succeeded(s[..|s| - 1], key, ok) + (if ok(last) then {last} else {})
  }

  lemma SucceededStep<T>(s: seq<T>, key: T -> string, ok: string -> bool, i: int)
    requires 0 <= i < |s|
    ensures Succeeded(s[..i + 1], key, ok) == Succeeded(s[..i], key, ok) + (if ok(key(s[i])) then {key(s[i])} else {})
  {
    assert s[..i + 1][..i] == s[..i];
  }

  lemma {:induction false} SucceededMembers<T>(s: seq<T>, key: T -> string, ok: string -> bool)
    ensures forall x :: x in Succeeded(s, key, ok) <==> ok(x) && exists e :: e in s && key(e) == x
    decreases |s|
  {
    if s != [] {
      var t := s[..|s| - 1];
      SucceededMembers(t, key, ok);
      assert s == t + [s[|s| - 1]];
      forall x ensures x in Succeeded(s, key, ok) <==> ok(x) && exists e :: e in s && key(e) == x {
        if ok(x) && exists e :: e in s && key(e) == x {
          var e :| e in s && key(e) == x;
          if e != s[|s| - 1] {
            assert e in t;
          }
        }
      }
    }
  }

  /** The cart store's removal is the handler's `filter` by product id. */
  lemma LinesWithout(lines: seq<CartItem>, id: string)
    ensures CartStore.Without(lines, id) == Filter(lines, Outside(LineKey, {id}))
  {
    CartStore.WithoutIsFilter(lines, id);
    FilterExt(lines, CartStore.LineNotFor(id), Outside(LineKey, {id}));
  }

  /** `products.filter(p => p.subCategory.id === id).map(p => p.id)`. */
  function ProductIdsIn(ps: seq<Product>, subCategoryId: string): (r: seq<string>)
    ensures forall x :: x in r <==> exists p :: p in ps && p.subCategory.id == subCategoryId && p.id == x
    decreases |ps|
  {
    if ps == [] then []
    else
      var rest := ProductIdsIn(ps[1..], subCategoryId);
      if ps[0].subCategory.id == subCategoryId then
        assert forall p :: p in ps[1..] ==> p in ps;
        [ps[0].id] + rest
      else
        assert forall p :: p in ps ==> p == ps[0] || p in ps[1..];
        rest
  }

  /** `subCategories.filter(sc => sc.mainCategoryId === id)`. */
  function SubCategoriesOf(scs: seq<SubCategory>, categoryId: string): (r: seq<SubCategory>)
    ensures forall sc :: sc in r <==> sc in scs && sc.mainCategoryId == categoryId
  {
    Filter(scs, (sc: SubCategory) => sc.mainCategoryId == categoryId)
  }

  /** The sub-category cascade deletes exactly the snapshot's products of
      that sub-category whose own delete succeeds. */
  lemma DeletedOfOne(snapshot: seq<Product>, subCategoryId: string, productOk: string -> bool)
    ensures Succeeded(ProductIdsIn(snapshot, subCategoryId), Ident, productOk) == Deleted(snapshot, {subCategoryId}, productOk)
  {
    SucceededMembers(ProductIdsIn(snapshot, subCategoryId), Ident, productOk);
    forall x ensures x in Succeeded(ProductIdsIn(snapshot, subCategoryId), Ident, productOk)
                     <==> x in Deleted(snapshot, {subCategoryId}, productOk) {
      if x in Deleted(snapshot, {subCategoryId}, productOk) {
        assert Ident(x) == x && x in ProductIdsIn(snapshot, subCategoryId);
      }
    }
  }

  /** The category cascade visits exactly the category's sub-categories. */
  lemma SubCategoriesOfCategory(scs: seq<SubCategory>, categoryId: string, subCategoryOk: string -> bool)
    ensures Succeeded(SubCategoriesOf(scs, categoryId), SubCategoryKey, subCategoryOk)
            == SubCategoriesDeleted(scs, categoryId, subCategoryOk)
  {
    SucceededMembers(SubCategoriesOf(scs, categoryId), SubCategoryKey, subCategoryOk);
  }

  /** `user ? orders.filter(o => o.userId === user.id) : []`. */
  function UserOrders(orders: seq<Order>, user: Option<string>): (r: seq<Order>)
    ensures user.None? ==> r == []
    ensures forall o :: o in r <==> user.Some? && o in orders && o.userId == Some(user.value)
    ensures Subsequence(r, orders)
  {
    if user.None? then []
    else
      var mine := (o: Order) => o.userId == Some(user.value);
      FilterIsSubsequence(orders, mine);
      Filter(orders, mine)
  }

  /** The wishlist the initial load adopts: the account's stored list (or
      none) when signed in, the guest list (or none) otherwise; the two are
      never combined. */
  function InitialWishlist(user: Option<string>, stored: Option<seq<string>>, guest: Option<seq<string>>): (w: seq<string>)
    ensures user.Some? ==> w == (if stored.Some? then stored.value else [])
    ensures user.None? ==> w == (if guest.Some? then guest.value else [])
  {
    if user.Some? then (if stored.Some? then stored.value else [])
    else if guest.Some? then guest.value else []
  }

  /** The fields of the shell other than the toast. */
  datatype Shell = Shell(
    products: seq<Product>,
    categories: seq<Category>,
    subCategories: seq<SubCategory>,
    orders: seq<Order>,
    reviews: seq<Review>,
    wishlist: seq<string>,
    page: Page,
    searchQuery: string,
    selectedCategoryId: Option<string>,
    selectedProductId: Option<string>,
    lastOrderId: Option<string>)

  class Storefront {
    var products: seq<Product>
    var categories: seq<Category>
    var subCategories: seq<SubCategory>
    var orders: seq<Order>
    var reviews: seq<Review>
    var wishlist: seq<string>
    var page: Page
    var searchQuery: string
    var selectedCategoryId: Option<string>
    var selectedProductId: Option<string>
    var lastOrderId: Option<string>
    var notice: Option<Notice>
    /** The cart store. */
    const cart: CartStore.Cart

    function State(): Shell
      reads this
    {
      Shell(products, categories, subCategories, orders, reviews, wishlist, page, searchQuery,
            selectedCategoryId, selectedProductId, lastOrderId)
    }

    /** The shell before the data load: empty lists, the home page. */
    constructor(cart: CartStore.Cart)
      ensures this.cart == cart && notice == None
      ensures State() == Shell([], [], [], [], [], [], Home, "", None, None, None)
    {
      this.cart := cart;
      products, categories, subCategories, orders, reviews, wishlist := [], [], [], [], [], [];
      page, searchQuery := Home, "";
      selectedCategoryId, selectedProductId, lastOrderId := None, None, None;
      notice := None;
    }

    /** The wishlist branch of the initial load. */
    method LoadWishlist(user: Option<string>, stored: Option<seq<string>>, guest: Option<seq<string>>)
      modifies this
      ensures State() == old(State()).(wishlist := InitialWishlist(user, stored, guest))
      ensures notice == old(notice)
    {
      wishlist := InitialWishlist(user, stored, guest);
    }

    /** `handleNavigate`: leaving the products page clears the search query. */
    method Navigate(newPage: Page)
      modifies this
      ensures State() == old(State()).(page := newPage,
                                       searchQuery := if old(page) == Products && newPage != Products then "" else old(searchQuery))
      ensures notice == old(notice)
    {
      if page == Products && newPage != Products {
        searchQuery := "";
      }
      page := newPage;
    }

    /** `handleSearch`: the query is set and the products page shown. */
    method Search(query: string)
      modifies this
      ensures State() == old(State()).(searchQuery := query, page := Products)
      ensures notice == old(notice)
    {
      searchQuery := query;
      Navigate(Products);
    }

    /** `handleCategorySelect`. */
    method SelectCategory(categoryId: Option<string>)
      modifies this
      ensures State() == old(State()).(selectedCategoryId := categoryId, page := Products)
      ensures notice == old(notice)
    {
      selectedCategoryId := categoryId;
      Navigate(Products);
    }

    /** `handleProductSelect`: leaving the products page for a product clears the query. */
    method SelectProduct(product: Product)
      modifies this
      ensures State() == old(State()).(selectedProductId := Some(product.id), page := ProductDetail,
                                       searchQuery := if old(page) == Products then "" else old(searchQuery))
      ensures notice == old(notice)
    {
      selectedProductId := Some(product.id);
      Navigate(ProductDetail);
    }

    /** `handleToggleWishlist`. */
    method ToggleWishlist(productId: string)
      modifies this
      ensures State() == old(State()).(wishlist := Toggle(old(wishlist), productId))
      ensures notice == Some(if productId in old(wishlist) then WishlistRemoved else WishlistAdded)
    {
      if productId in wishlist {
        notice := Some(WishlistRemoved);
      } else {
        notice := Some(WishlistAdded);
      }
      wishlist := Toggle(wishlist, productId);
    }

    /** `handlePlaceOrder`: the row sent is the draft with the date and the
        status Processing; `inserted` is what the insert returned (None on an
        error or no data). Only a returned order is prepended, and only then is
        the cart cleared and the confirmation page shown. */
    method PlaceOrder(draft: OrderDraft, now: string, inserted: Option<Order>, user: Option<string>)
      returns (sent: NewOrder)
      modifies this, cart
      ensures sent.draft == draft && sent.date == now && sent.status == Processing
      ensures inserted.None? ==>
                State() == old(State()) && notice == Some(OrderFailed)
                && cart.items == old(cart.items) && cart.guestSlot == old(cart.guestSlot)
      ensures inserted.Some? ==>
                State() == old(State()).(orders := [inserted.value] + old(orders),
                                         lastOrderId := Some(inserted.value.id),
                                         page := OrderConfirmation,
                                         searchQuery := if old(page) == Products then "" else old(searchQuery))
                && notice == old(notice) && cart.items == []
                && cart.guestSlot == (if user.Some? then old(cart.guestSlot) else None)
      ensures cart.isInitialized == old(cart.isInitialized)
    {
      sent := NewOrder(draft, now, Processing);
      if inserted.None? {
        notice := Some(OrderFailed);
        return;
      }
      orders := [inserted.value] + orders;
      var _ := cart.ClearCart(user);
      lastOrderId := Some(inserted.value.id);
      Navigate(OrderConfirmation);
    }

    /** `handleDeleteProduct`, with the product list the handler closed over
        (`snapshot`): an id the snapshot lacks does nothing; a failed delete
        only raises a toast; a successful one removes the product from the
        catalogue, the cart and the wishlist, and drops its reviews. */
    method DeleteProductFrom(snapshot: seq<Product>, productId: string, deleteOk: bool)
      modifies this, cart
      ensures FindProduct(snapshot, productId).None? ==>
                State() == old(State()) && notice == old(notice) && cart.items == old(cart.items)
      ensures FindProduct(snapshot, productId).Some? && !deleteOk ==>
                State() == old(State()) && notice == Some(ProductDeleteFailed) && cart.items == old(cart.items)
      ensures FindProduct(snapshot, productId).Some? && deleteOk ==>
                State() == old(State()).(products := Filter(old(products), Outside(ProductKey, {productId})),
                                         wishlist := Filter(old(wishlist), Outside(Ident, {productId})),
                                         reviews := Filter(old(reviews), Outside(ReviewKey, {productId})))
                && notice == Some(ProductDeleted(FindProduct(snapshot, productId).value.nameAr))
                && cart.items == Filter(old(cart.items), Outside(LineKey, {productId}))
      ensures cart.isInitialized == old(cart.isInitialized) && cart.guestSlot == old(cart.guestSlot)
    {
      var product := FindProduct(snapshot, productId);
      if product.None? {
        return;
      }
      if !deleteOk {
        notice := Some(ProductDeleteFailed);
        return;
      }
      RemoveProduct(productId, product.value.nameAr);
    }

    /** The success branch of `handleDeleteProduct`: the product leaves the
        catalogue, the cart and the wishlist, and its reviews are dropped. */
    method RemoveProduct(productId: string, name: string)
      modifies this, cart
      ensures State() == old(State()).(products := Filter(old(products), Outside(ProductKey, {productId})),
                                       wishlist := Filter(old(wishlist), Outside(Ident, {productId})),
                                       reviews := Filter(old(reviews), Outside(ReviewKey, {productId})))
      ensures notice == Some(ProductDeleted(name))
      ensures cart.items == Filter(old(cart.items), Outside(LineKey, {productId}))
      ensures cart.isInitialized == old(cart.isInitialized) && cart.guestSlot == old(cart.guestSlot)
    {
      LinesWithout(cart.items, productId);
      var _ := cart.RemoveFromCart(productId, name);
      ghost var s0 := State();
      products := Filter(products, Outside(ProductKey, {productId}));
      wishlist := Filter(wishlist, Outside(Ident, {productId}));
      reviews := Filter(reviews, Outside(ReviewKey, {productId}));
      notice := Some(ProductDeleted(name));
      assert State() == s0.(products := products, wishlist := wishlist, reviews := reviews);
    }

    /** `handleDeleteProduct` from the admin list. */
    method DeleteProduct(productId: string, deleteOk: bool)
      modifies this, cart
      ensures FindProduct(old(products), productId).None? || !deleteOk ==>
                State() == old(State()) && cart.items == old(cart.items)
      ensures FindProduct(old(products), productId).Some? && deleteOk ==>
                State() == old(State()).(products := Filter(old(products), Outside(ProductKey, {productId})),
                                         wishlist := Filter(old(wishlist), Outside(Ident, {productId})),
                                         reviews := Filter(old(reviews), Outside(ReviewKey, {productId})))
                && cart.items == Filter(old(cart.items), Outside(LineKey, {productId}))
      ensures cart.isInitialized == old(cart.isInitialized) && cart.guestSlot == old(cart.guestSlot)
    {
      DeleteProductFrom(products, productId, deleteOk);
    }

    /** `handleDeleteSubCategory`, with the product list the handler closed
        over: on success, every snapshot product of that sub-category is
        deleted in turn (each by its own delete, which may fail), then the
        sub-category is dropped. */
    method DeleteSubCategoryFrom(snapshot: seq<Product>, subCategoryId: string, deleteOk: bool,
                                 productOk: string -> bool)
      modifies this, cart
      ensures !deleteOk ==> State() == old(State()) && notice == Some(SubCategoryDeleteFailed) && cart.items == old(cart.items)
      ensures deleteOk ==>
                var gone := Deleted(snapshot, {subCategoryId}, productOk);
                State() == old(State()).(products := Filter(old(products), Outside(ProductKey, gone)),
                                         wishlist := Filter(old(wishlist), Outside(Ident, gone)),
                                         reviews := Filter(old(reviews), Outside(ReviewKey, gone)),
                                         subCategories := Filter(old(subCategories), Outside(SubCategoryKey, {subCategoryId})))
                && cart.items == Filter(old(cart.items), Outside(LineKey, gone))
                && notice == Some(SubCategoryDeleted)
      ensures cart.isInitialized == old(cart.isInitialized) && cart.guestSlot == old(cart.guestSlot)
    {
      if !deleteOk {
        notice := Some(SubCategoryDeleteFailed);
        return;
      }
      var toDelete := ProductIdsIn(snapshot, subCategoryId);
      CascadeProducts(snapshot, toDelete, productOk);
      DeletedOfOne(snapshot, subCategoryId, productOk);
      subCategories := Filter(subCategories, Outside(SubCategoryKey, {subCategoryId}));
      notice := Some(SubCategoryDeleted);
    }

    /** The loop of `handleDeleteSubCategory`: each id of `toDelete` is
        deleted in turn through `handleDeleteProduct` over `snapshot`; the
        ones whose own delete fails stay. */
    method CascadeProducts(snapshot: seq<Product>, toDelete: seq<string>, productOk: string -> bool)
      requires forall pid :: pid in toDelete ==> FindProduct(snapshot, pid).Some?
      modifies this, cart
      ensures var gone := Succeeded(toDelete, Ident, productOk);
              State() == old(State()).(products := Filter(old(products), Outside(ProductKey, gone)),
                                       wishlist := Filter(old(wishlist), Outside(Ident, gone)),
                                       reviews := Filter(old(reviews), Outside(ReviewKey, gone)))
              && cart.items == Filter(old(cart.items), Outside(LineKey, gone))
      ensures cart.isInitialized == old(cart.isInitialized) && cart.guestSlot == old(cart.guestSlot)
    {
      ghost var start := State();
      ghost var startItems := cart.items;
      ghost var gone: set<string> := {};
      RemoveNothing(start.products, ProductKey);
      RemoveNothing(start.wishlist, Ident);
      RemoveNothing(start.reviews, ReviewKey);
      RemoveNothing(startItems, LineKey);
      var i := 0;
      while i < |toDelete|
        invariant 0 <= i <= |toDelete|
        invariant gone == Succeeded(toDelete[..i], Ident, productOk)
        invariant State() == start.(products := Filter(start.products, Outside(ProductKey, gone)),
                                    wishlist := Filter(start.wishlist, Outside(Ident, gone)),
                                    reviews := Filter(start.reviews, Outside(ReviewKey, gone)))
        invariant cart.items == Filter(startItems, Outside(LineKey, gone))
        invariant cart.isInitialized == old(cart.isInitialized) && cart.guestSlot == old(cart.guestSlot)
      {
        var pid := toDelete[i];
        assert pid in toDelete;
        assert FindProduct(snapshot, pid).Some?;
        DeleteProductFrom(snapshot, pid, productOk(pid));
        SucceededStep(toDelete, Ident, productOk, i);
        if productOk(pid) {
          RemoveMore(start.products, ProductKey, gone, {pid});
          RemoveMore(start.wishlist, Ident, gone, {pid});
          RemoveMore(start.reviews, ReviewKey, gone, {pid});
          RemoveMore(startItems, LineKey, gone, {pid});
          gone := gone + {pid};
        }
        i := i + 1;
      }
      assert toDelete[..i] == toDelete;
    }

    /** `handleDeleteSubCategory` from the admin list. */
    method DeleteSubCategory(subCategoryId: string, deleteOk: bool, productOk: string -> bool)
      modifies this, cart
      ensures !deleteOk ==> State() == old(State()) && cart.items == old(cart.items)
      ensures deleteOk ==>
                var gone := Deleted(old(products), {subCategoryId}, productOk);
                State() == old(State()).(products := Filter(old(products), Outside(ProductKey, gone)),
                                         wishlist := Filter(old(wishlist), Outside(Ident, gone)),
                                         reviews := Filter(old(reviews), Outside(ReviewKey, gone)),
                                         subCategories := Filter(old(subCategories), Outside(SubCategoryKey, {subCategoryId})))
                && cart.items == Filter(old(cart.items), Outside(LineKey, gone))
    {
      DeleteSubCategoryFrom(products, subCategoryId, deleteOk, productOk);
    }

    /** `handleDeleteCategory`: on success each of its sub-categories (from the
        list the handler closed over) is deleted in turn, cascading to their
        products, and then the category is dropped. */
    method DeleteCategory(categoryId: string, deleteOk: bool, subCategoryOk: string -> bool, productOk: string -> bool)
      modifies this, cart
      ensures !deleteOk ==> State() == old(State()) && notice == Some(CategoryDeleteFailed) && cart.items == old(cart.items)
      ensures deleteOk ==>
                var subs := SubCategoriesDeleted(old(subCategories), categoryId, subCategoryOk);
                var gone := Deleted(old(products), subs, productOk);
                State() == old(State()).(products := Filter(old(products), Outside(ProductKey, gone)),
                                         wishlist := Filter(old(wishlist), Outside(Ident, gone)),
                                         reviews := Filter(old(reviews), Outside(ReviewKey, gone)),
                                         subCategories := Filter(old(subCategories), Outside(SubCategoryKey, subs)),
                                         categories := Filter(old(categories), Outside(CategoryKey, {categoryId})))
                && cart.items == Filter(old(cart.items), Outside(LineKey, gone))
                && notice == Some(CategoryDeleted)
    {
      if !deleteOk {
        notice := Some(CategoryDeleteFailed);
        return;
      }
      var snapshot := products;
      var toDelete := SubCategoriesOf(subCategories, categoryId);
      ghost var start := State();
      CascadeSubCategories(snapshot, toDelete, subCategoryOk, productOk);
      SubCategoriesOfCategory(start.subCategories, categoryId, subCategoryOk);
      categories := Filter(categories, Outside(CategoryKey, {categoryId}));
      notice := Some(CategoryDeleted);
    }

    /** The loop of `handleDeleteCategory`: each sub-category of `toDelete`
        is deleted in turn, with its products from `snapshot`; the ones whose
        own delete fails stay, with their products. */
    method CascadeSubCategories(snapshot: seq<Product>, toDelete: seq<SubCategory>,
                                subCategoryOk: string -> bool, productOk: string -> bool)
      modifies this, cart
      ensures var subs := Succeeded(toDelete, SubCategoryKey, subCategoryOk);
              var gone := Deleted(snapshot, subs, productOk);
              State() == old(State()).(products := Filter(old(products), Outside(ProductKey, gone)),
                                       wishlist := Filter(old(wishlist), Outside(Ident, gone)),
                                       reviews := Filter(old(reviews), Outside(ReviewKey, gone)),
                                       subCategories := Filter(old(subCategories), Outside(SubCategoryKey, subs)))
              && cart.items == Filter(old(cart.items), Outside(LineKey, gone))
    {
      ghost var start := State();
      ghost var startItems := cart.items;
      ghost var subs: set<string> := {};
      ghost var gone: set<string> := {};
      RemoveNothing(start.products, ProductKey);
      RemoveNothing(start.wishlist, Ident);
      RemoveNothing(start.reviews, ReviewKey);
      RemoveNothing(start.subCategories, SubCategoryKey);
      RemoveNothing(startItems, LineKey);
      var i := 0;
      while i < |toDelete|
        invariant 0 <= i <= |toDelete|
        invariant subs == Succeeded(toDelete[..i], SubCategoryKey, subCategoryOk)
        invariant gone == Deleted(snapshot, subs, productOk)
        invariant State() == start.(products := Filter(start.products, Outside(ProductKey, gone)),
                                    wishlist := Filter(start.wishlist, Outside(Ident, gone)),
                                    reviews := Filter(start.reviews, Outside(ReviewKey, gone)),
                                    subCategories := Filter(start.subCategories, Outside(SubCategoryKey, subs)))
        invariant cart.items == Filter(startItems, Outside(LineKey, gone))
      {
        var sc := toDelete[i];
        DeleteSubCategoryFrom(snapshot, sc.id, subCategoryOk(sc.id), productOk);
        SucceededStep(toDelete, SubCategoryKey, subCategoryOk, i);
        if subCategoryOk(sc.id) {
          var more := Deleted(snapshot, {sc.id}, productOk);
          RemoveMore(start.products, ProductKey, gone, more);
          RemoveMore(start.wishlist, Ident, gone, more);
          RemoveMore(start.reviews, ReviewKey, gone, more);
          RemoveMore(startItems, LineKey, gone, more);
          RemoveMore(start.subCategories, SubCategoryKey, subs, {sc.id});
          DeletedUnion(snapshot, subs, {sc.id}, productOk);
          subs := subs + {sc.id};
          gone := gone + more;
        }
        i := i + 1;
      }
      assert toDelete[..i] == toDelete;
    }
  }
}

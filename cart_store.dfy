/** The cart store (stores/cartStore.ts): a ledger of (product id, quantity)
    lines with its actions. The guest cart kept in the browser's local storage
    is the field `guestSlot` (already parsed); the remote `user_carts` row is
    read through a `FetchResult` argument and deleted through a returned effect. */
module CartStore {
  import opened Types
  import Seqs

  // --- The ledger as a JavaScript Map from product id to quantity ---

  /** The product ids of the lines, in order. */
  function Ids(m: seq<CartItem>): (r: seq<string>)
    ensures |r| == |m|
  {
    if m == [] then [] else [m[0].productId] + Ids(m[1..])
  }

  lemma {:induction false} IdsConcat(a: seq<CartItem>, b: seq<CartItem>)
    ensures Ids(a + b) == Ids(a) + Ids(b)
    decreases |a|
  {
    if a == [] {
      assert a + b == b;
    } else {
      assert (a + b)[1..] == a[1..] + b;
      IdsConcat(a[1..], b);
    }
  }

  /** Every product occurs on at most one line. */
  predicate UniqueIds(m: seq<CartItem>)
  {
    m == [] || (m[0].productId !in Ids(m[1..]) && UniqueIds(m[1..]))
  }

  lemma {:induction false} UniqueSnoc(a: seq<CartItem>, x: CartItem)
    ensures UniqueIds(a + [x]) <==> UniqueIds(a) && x.productId !in Ids(a)
    decreases |a|
  {
    if a == [] {
      assert a + [x] == [x];
    } else {
      assert (a + [x])[1..] == a[1..] + [x];
      IdsConcat(a[1..], [x]);
      UniqueSnoc(a[1..], x);
    }
  }

  /** Every line holds at least one unit. */
  predicate Positive(m: seq<CartItem>)
  {
    m == [] || (m[0].quantity >= 1 && Positive(m[1..]))
  }

  lemma {:induction false} PositiveSnoc(m: seq<CartItem>, x: CartItem)
    requires Positive(m) && x.quantity >= 1
    ensures Positive(m + [x])
    decreases |m|
  {
    if m == [] {
      assert m + [x] == [x];
    } else {
      assert (m + [x])[1..] == m[1..] + [x];
      PositiveSnoc(m[1..], x);
    }
  }

  /** `map.get(id) || 0`, and the quantity of the line `find` returns. */
  function Get(m: seq<CartItem>, id: string): int
    decreases |m|
  {
    if m == [] then 0
    else if m[0].productId == id then m[0].quantity
    else Get(m[1..], id)
  }

  /** `map.get(id) || 0` of a key the Map does not hold is 0. */
  lemma {:induction false} GetAbsent(m: seq<CartItem>, id: string)
    requires id !in Ids(m)
    ensures Get(m, id) == 0
    decreases |m|
  {
    if m != [] {
      GetAbsent(m[1..], id);
    }
  }

  /** In a ledger of positive lines, a product that is present has a positive quantity. */
  lemma {:induction false} GetPositive(m: seq<CartItem>, id: string)
    requires Positive(m) && id in Ids(m)
    ensures Get(m, id) >= 1
    decreases |m|
  {
    if m[0].productId != id {
      GetPositive(m[1..], id);
    }
  }

  /** `map.set(id, q)`: replaces the quantity of an existing key in place, or
      appends a new key at the end (see PutIds, PutGet, PutOther). */
  function Put(m: seq<CartItem>, id: string, q: int): seq<CartItem>
    decreases |m|
  {
    if m == [] then [CartItem(id, q)]
    else if m[0].productId == id then [CartItem(id, q)] + m[1..]
    else [m[0]] + Put(m[1..], id, q)
  }

  /** The keys keep their order; a new key goes last. */
  lemma {:induction false} PutIds(m: seq<CartItem>, id: string, q: int)
    ensures Ids(Put(m, id, q)) == if id in Ids(m) then Ids(m) else Ids(m) + [id]
    decreases |m|
  {
    if m != [] && m[0].productId != id {
      PutIds(m[1..], id, q);
      var t := Put(m[1..], id, q);
      assert ([m[0]] + t)[1..] == t;
      if id !in Ids(m[1..]) {
        assert [m[0].productId] + (Ids(m[1..]) + [id]) == ([m[0].productId] + Ids(m[1..])) + [id];
      }
    }
  }

  /** After `map.set(id, q)`, `map.get(id)` is `q`. */
  lemma {:induction false} PutGet(m: seq<CartItem>, id: string, q: int)
    ensures Get(Put(m, id, q), id) == q
    decreases |m|
  {
    if m != [] && m[0].productId != id {
      PutGet(m[1..], id, q);
      assert ([m[0]] + Put(m[1..], id, q))[1..] == Put(m[1..], id, q);
    }
  }

  /** `map.set(id, q)` leaves every other key's value alone. */
  lemma {:induction false} PutOther(m: seq<CartItem>, id: string, q: int, k: string)
    requires k != id
    ensures Get(Put(m, id, q), k) == Get(m, k)
    decreases |m|
  {
    if m != [] && m[0].productId != id {
      PutOther(m[1..], id, q, k);
      assert ([m[0]] + Put(m[1..], id, q))[1..] == Put(m[1..], id, q);
    }
  }

  /** `map.set` never creates a second line for a key. */
  lemma {:induction false} PutUnique(m: seq<CartItem>, id: string, q: int)
    requires UniqueIds(m)
    ensures UniqueIds(Put(m, id, q))
    decreases |m|
  {
    if m != [] {
      if m[0].productId == id {
        assert ([CartItem(id, q)] + m[1..])[1..] == m[1..];
      } else {
        PutUnique(m[1..], id, q);
        PutIds(m[1..], id, q);
        assert ([m[0]] + Put(m[1..], id, q))[1..] == Put(m[1..], id, q);
      }
    }
  }

  /** Setting a new key appends it. */
  lemma {:induction false} PutNew(m: seq<CartItem>, id: string, q: int)
    requires id !in Ids(m)
    ensures Put(m, id, q) == m + [CartItem(id, q)]
    decreases |m|
  {
    if m != [] {
      PutNew(m[1..], id, q);
      assert [m[0]] + (m[1..] + [CartItem(id, q)]) == m + [CartItem(id, q)];
    }
  }

  /** `new Map(entries)`: keys in order of first occurrence, each with the
      quantity of its last occurrence (see FromEntriesLastWins). */
  function FromEntries(entries: seq<CartItem>): seq<CartItem>
    decreases |entries|
  {
    if entries == [] then []
    else
      var n := |entries| - 1;
      Put(FromEntries(entries[..n]), entries[n].productId, entries[n].quantity)
  }

  /** The Map has exactly the keys of its entries, each once. */
  lemma {:induction false} FromEntriesKeys(entries: seq<CartItem>)
    ensures UniqueIds(FromEntries(entries))
    ensures forall k :: k in Ids(FromEntries(entries)) <==> k in Ids(entries)
    decreases |entries|
  {
    if entries != [] {
      var n := |entries| - 1;
      assert entries == entries[..n] + [entries[n]];
      IdsConcat(entries[..n], [entries[n]]);
      FromEntriesKeys(entries[..n]);
      PutIds(FromEntries(entries[..n]), entries[n].productId, entries[n].quantity);
      PutUnique(FromEntries(entries[..n]), entries[n].productId, entries[n].quantity);
    }
  }

  /** A line for a product the ledger does not hold goes at the end: it
      reads back as its quantity, every other product keeps its own, and
      distinct ids and positive lines stay so. */
  lemma AppendLine(m: seq<CartItem>, id: string, q: int)
    requires id !in Ids(m)
    ensures Get(m, id) == 0 && Get(m + [CartItem(id, q)], id) == q
    ensures forall k :: k != id ==> Get(m + [CartItem(id, q)], k) == Get(m, k)
    ensures UniqueIds(m) ==> UniqueIds(m + [CartItem(id, q)])
    ensures Positive(m) && q >= 1 ==> Positive(m + [CartItem(id, q)])
  {
    PutNew(m, id, q);
    PutGet(m, id, q);
    GetAbsent(m, id);
    forall k | k != id
      ensures Get(m + [CartItem(id, q)], k) == Get(m, k)
    {
      PutOther(m, id, q, k);
    }
    UniqueSnoc(m, CartItem(id, q));
    if Positive(m) && q >= 1 {
      PositiveSnoc(m, CartItem(id, q));
    }
  }

  /** The quantity of the last line for `id`, 0 when there is none. */
  function LastQuantity(entries: seq<CartItem>, id: string): int
    decreases |entries|
  {
    if entries == [] then 0
    else if entries[|entries| - 1].productId == id then entries[|entries| - 1].quantity
    else LastQuantity(entries[..|entries| - 1], id)
  }

  /** Building a Map from entries keeps, for every key, the last value written. */
  lemma {:induction false} FromEntriesLastWins(entries: seq<CartItem>, id: string)
    ensures Get(FromEntries(entries), id) == LastQuantity(entries, id)
    decreases |entries|
  {
    if entries != [] {
      var n := |entries| - 1;
      FromEntriesLastWins(entries[..n], id);
      if entries[n].productId == id {
        PutGet(FromEntries(entries[..n]), id, entries[n].quantity);
      } else {
        PutOther(FromEntries(entries[..n]), entries[n].productId, entries[n].quantity, id);
      }
    }
  }

  /** A ledger without repeated products survives the trip through a Map unchanged. */
  lemma {:induction false} FromEntriesUnique(entries: seq<CartItem>)
    requires UniqueIds(entries)
    ensures FromEntries(entries) == entries
    decreases |entries|
  {
    if entries != [] {
      var n := |entries| - 1;
      assert entries == entries[..n] + [entries[n]];
      UniqueSnoc(entries[..n], entries[n]);
      FromEntriesUnique(entries[..n]);
      PutNew(entries[..n], entries[n].productId, entries[n].quantity);
    }
  }

  /** The total the guest cart holds for `id`. */
  function GuestTotal(guest: seq<CartItem>, id: string): int
    decreases |guest|
  {
    if guest == [] then 0
    else
      var n := |guest| - 1;
      GuestTotal(guest[..n], id) + (if guest[n].productId == id then guest[n].quantity else 0)
  }

  /** The `forEach` of the merge: every guest line adds its quantity to its key. */
  function AddAll(m: seq<CartItem>, guest: seq<CartItem>): seq<CartItem>
    decreases |guest|
  {
    if guest == [] then m
    else
      var n := |guest| - 1;
      var acc := AddAll(m, guest[..n]);
      Put(acc, guest[n].productId, Get(acc, guest[n].productId) + guest[n].quantity)
  }

  /** Adding guest lines keeps keys unique and adds exactly the guest's keys. */
  lemma {:induction false} AddAllKeys(m: seq<CartItem>, guest: seq<CartItem>)
    ensures UniqueIds(m) ==> UniqueIds(AddAll(m, guest))
    ensures forall k :: k in Ids(AddAll(m, guest)) <==> k in Ids(m) || k in Ids(guest)
    decreases |guest|
  {
    if guest != [] {
      var n := |guest| - 1;
      var prefix, g := guest[..n], guest[n];
      var acc := AddAll(m, prefix);
      var q := Get(acc, g.productId) + g.quantity;
      AddAllKeys(m, prefix);
      assert AddAll(m, guest) == Put(acc, g.productId, q) by {
        AddAllStep(m, guest);
      }
      assert Ids(guest) == Ids(prefix) + [g.productId] by {
        LastSplit(guest);
        IdsConcat(prefix, [g]);
        assert Ids([g]) == [g.productId] + Ids([]);
      }
      PutIds(acc, g.productId, q);
      if UniqueIds(m) {
        PutUnique(acc, g.productId, q);
      }
    }
  }

  /** Merging adds the guest's quantities to what the map held. */
  lemma {:induction false} AddAllSums(m: seq<CartItem>, guest: seq<CartItem>, id: string)
    ensures Get(AddAll(m, guest), id) == Get(m, id) + GuestTotal(guest, id)
    decreases |guest|
  {
    if guest != [] {
      var n := |guest| - 1;
      var g, acc := guest[n], AddAll(m, guest[..n]);
      AddAllSums(m, guest[..n], id);
      assert Get(AddAll(m, guest), id) == Get(acc, id) + (if g.productId == id then g.quantity else 0) by {
        AddAllStep(m, guest);
        PutThenGet(acc, g.productId, Get(acc, g.productId) + g.quantity, id);
      }
    }
  }

  /** `map.set(key, q)` read back at any id: `q` at the key, the old value elsewhere. */
  lemma PutThenGet(acc: seq<CartItem>, key: string, q: int, id: string)
    ensures Get(Put(acc, key, q), id) == if key == id then q else Get(acc, id)
  {
    if key == id {
      PutGet(acc, id, q);
    } else {
      PutOther(acc, key, q, id);
    }
  }

  /** The merged ledger of mergeAndSyncCarts when the guest cart is not empty. */
  function Merge(db: seq<CartItem>, guest: seq<CartItem>): (r: seq<CartItem>)
    ensures UniqueIds(r)
    ensures forall k :: k in Ids(r) <==> k in Ids(db) || k in Ids(guest)
  {
    FromEntriesKeys(db);
    AddAllKeys(FromEntries(db), guest);
    AddAll(FromEntries(db), guest)
  }

  /** The merge is additive: remote quantity (its last line) plus every guest line. */
  lemma MergeIsAdditive(db: seq<CartItem>, guest: seq<CartItem>, id: string)
    ensures Get(Merge(db, guest), id) == LastQuantity(db, id) + GuestTotal(guest, id)
  {
    AddAllSums(FromEntries(db), guest, id);
    FromEntriesLastWins(db, id);
  }

  /** The same for every product id at once. */
  lemma MergeAdditiveEverywhere(db: seq<CartItem>, guest: seq<CartItem>)
    ensures forall k :: Get(Merge(db, guest), k) == LastQuantity(db, k) + GuestTotal(guest, k)
  {
    forall k ensures Get(Merge(db, guest), k) == LastQuantity(db, k) + GuestTotal(guest, k) {
      MergeIsAdditive(db, guest, k);
    }
  }

  /** With no remote cart, merging a guest cart without repeated products
      gives the guest cart itself. */
  lemma MergeIntoEmpty(guest: seq<CartItem>)
    requires UniqueIds(guest)
    ensures Merge([], guest) == guest
  {
    AddAllIntoEmpty(guest);
  }

  lemma {:induction false} AddAllIntoEmpty(guest: seq<CartItem>)
    requires UniqueIds(guest)
    ensures AddAll([], guest) == guest
    decreases |guest|
  {
    if guest != [] {
      var n := |guest| - 1;
      var prefix, g := guest[..n], guest[n];
      assert UniqueIds(prefix) && g.productId !in Ids(prefix) by {
        LastSplit(guest);
        UniqueSnoc(prefix, g);
      }
      AddAllIntoEmpty(prefix);
      assert AddAll([], guest) == Put(prefix, g.productId, g.quantity) by {
        AddAllStep([], guest);
        GetAbsent(prefix, g.productId);
      }
      PutNew(prefix, g.productId, g.quantity);
      LastSplit(guest);
    }
  }

  lemma LastSplit(s: seq<CartItem>)
    requires s != []
    ensures s == s[..|s| - 1] + [s[|s| - 1]]
  {
  }

  lemma MergeStep(m: seq<CartItem>, guest: seq<CartItem>, i: int, acc: seq<CartItem>, next: seq<CartItem>)
    requires 0 <= i < |guest|
    requires acc == AddAll(m, guest[..i])
    requires next == Put(acc, guest[i].productId, Get(acc, guest[i].productId) + guest[i].quantity)
    ensures next == AddAll(m, guest[..i + 1])
  {
    AddAllStep(m, guest[..i + 1]);
    assert guest[..i + 1][..i] == guest[..i];
  }

  lemma AddAllStep(m: seq<CartItem>, guest: seq<CartItem>)
    requires guest != []
    ensures var n := |guest| - 1;
            var acc := AddAll(m, guest[..n]);
            AddAll(m, guest) == Put(acc, guest[n].productId, Get(acc, guest[n].productId) + guest[n].quantity)
  {
  }

  /** The merge loop: a Map built from the remote lines, then every guest
      line adds its quantity under its product id. */
  method MergeCarts(dbCart: seq<CartItem>, guestCart: seq<CartItem>) returns (merged: seq<CartItem>)
    ensures merged == Merge(dbCart, guestCart)
  {
    merged := FromEntries(dbCart);
    ghost var start := merged;
    var i := 0;
    assert guestCart[..0] == [];
    while i < |guestCart|
      invariant 0 <= i <= |guestCart|
      invariant merged == AddAll(start, guestCart[..i])
    {
      var g := guestCart[i];
      var currentQuantity := Get(merged, g.productId);
      var next := Put(merged, g.productId, currentQuantity + g.quantity);
      MergeStep(start, guestCart, i, merged, next);
      merged, i := next, i + 1;
    }
    assert guestCart[..|guestCart|] == guestCart;
    assert merged == AddAll(start, guestCart);
  }

  // --- Line edits ---

  /** `items.map(...)` setting the quantity of every line for `id`. */
  function SetQuantity(m: seq<CartItem>, id: string, q: int): (r: seq<CartItem>)
    ensures Ids(r) == Ids(m)
    ensures id in Ids(m) ==> Get(r, id) == q
    ensures forall k :: k != id ==> Get(r, k) == Get(m, k)
    ensures UniqueIds(m) ==> UniqueIds(r)
    ensures Positive(m) && q >= 1 ==> Positive(r)
  {
    if m == [] then []
    else
      var r := [if m[0].productId == id then CartItem(id, q) else m[0]] + SetQuantity(m[1..], id, q);
      assert r[1..] == SetQuantity(m[1..], id, q);
      r
  }

  /** `items.filter(item => item.productId !== id)`. */
  function Without(m: seq<CartItem>, id: string): (r: seq<CartItem>)
    ensures forall k :: k in Ids(r) <==> k in Ids(m) && k != id
    ensures forall k :: k != id ==> Get(r, k) == Get(m, k)
    ensures UniqueIds(m) ==> UniqueIds(r)
    ensures Positive(m) ==> Positive(r)
    ensures |r| <= |m|
  {
    if m == [] then []
    else
      var t := Without(m[1..], id);
      if m[0].productId == id then t
      else
        var r := [m[0]] + t;
        assert r[1..] == t;
        r
  }

  /** `item => item.productId !== id`. */
  function LineNotFor(id: string): CartItem -> bool
  {
    (line: CartItem) => line.productId != id
  }

  /** Removing a product is the `filter` on its id. */
  lemma {:induction false} WithoutIsFilter(m: seq<CartItem>, id: string)
    ensures Without(m, id) == Seqs.Filter(m, LineNotFor(id))
    decreases |m|
  {
    if m != [] {
      WithoutIsFilter(m[1..], id);
    }
  }

  /** Removing a product twice leaves the same ledger as removing it once. */
  lemma {:induction false} WithoutIdempotent(m: seq<CartItem>, id: string)
    ensures Without(Without(m, id), id) == Without(m, id)
    decreases |m|
  {
    if m != [] {
      WithoutIdempotent(m[1..], id);
      if m[0].productId != id {
        assert Without(m, id)[1..] == Without(m[1..], id);
      }
    }
  }

  /** Removing an absent product changes nothing. */
  lemma {:induction false} WithoutAbsent(m: seq<CartItem>, id: string)
    requires id !in Ids(m)
    ensures Without(m, id) == m
    decreases |m|
  {
    if m != [] {
      WithoutAbsent(m[1..], id);
      assert [m[0]] + m[1..] == m;
    }
  }

  // --- The store ---

  /** The toasts the actions return, as tags. */
  datatype CartMessage =
    | OutOfStock
    | CannotAddMore(have: int, stock: int)
    | QuantityUnavailable(stock: int)
    | Added(productName: string)
    | Removed(productName: string)
    | NoMessage

  datatype Outcome = Outcome(success: bool, message: CartMessage)

  /** The remote `user_carts` read: a row (whose `items` may be missing), no
      row at all (PGRST116), or any other error. */
  datatype FetchResult = Row(items: Option<seq<CartItem>>) | NoRow | FetchError

  /** `guestCartJSON ? JSON.parse(guestCartJSON) : []`. */
  function GuestItems(slot: Option<seq<CartItem>>): seq<CartItem>
  {
    if slot.Some? then slot.value else []
  }

  /** `data?.items || []`. */
  function RemoteItems(f: FetchResult): seq<CartItem>
  {
    if f.Row? && f.items.Some? then f.items.value else []
  }

  class Cart {
    var items: seq<CartItem>
    var isInitialized: bool
    /** The guest cart in local storage; None when the key is absent. */
    var guestSlot: Option<seq<CartItem>>

    constructor(stored: Option<seq<CartItem>>)
      ensures items == [] && !isInitialized && guestSlot == stored
    {
      items := [];
      isInitialized := false;
      guestSlot := stored;
    }

    /** `addToCart(product, quantity)`. */
    method AddToCart(product: Product, quantity: int) returns (o: Outcome)
      modifies this
      ensures isInitialized == old(isInitialized) && guestSlot == old(guestSlot)
      ensures var id := product.id;
              var have := Get(old(items), id);
              if product.stock < 1 then
                o == Outcome(false, OutOfStock) && items == old(items)
              else if id in Ids(old(items)) then
                if have + quantity > product.stock then
                  o == Outcome(false, CannotAddMore(have, product.stock)) && items == old(items)
                else
                  o == Outcome(true, Added(product.nameAr)) && items == SetQuantity(old(items), id, have + quantity)
              else if quantity > product.stock then
                o == Outcome(false, QuantityUnavailable(product.stock)) && items == old(items)
              else
                o == Outcome(true, Added(product.nameAr)) && items == old(items) + [CartItem(id, quantity)]
      ensures o.success ==> Get(items, product.id) == Get(old(items), product.id) + quantity <= product.stock
      ensures forall k :: k != product.id ==> Get(items, k) == Get(old(items), k)
      ensures UniqueIds(old(items)) ==> UniqueIds(items)
      ensures Positive(old(items)) && quantity >= 1 ==> Positive(items)
    {
      if product.stock < 1 {
        return Outcome(false, OutOfStock);
      }
      var existing := if product.id in Ids(items) then Some(Get(items, product.id)) else None;
      if existing.Some? {
        var newQuantity := existing.value + quantity;
        if Positive(items) {
          GetPositive(items, product.id);
        }
        if newQuantity > product.stock {
          return Outcome(false, CannotAddMore(existing.value, product.stock));
        }
        items := SetQuantity(items, product.id, newQuantity);
      } else {
        if quantity > product.stock {
          return Outcome(false, QuantityUnavailable(product.stock));
        }
        AppendLine(items, product.id, quantity);
        items := items + [CartItem(product.id, quantity)];
      }
      o := Outcome(true, Added(product.nameAr));
    }

    /** `updateQuantity(productId, newQuantity, stock)`: a quantity of zero or
        less removes the line; one above `stock` fails; otherwise the quantity
        is set exactly. */
    method UpdateQuantity(productId: string, newQuantity: int, stock: int) returns (o: Outcome)
      modifies this
      ensures isInitialized == old(isInitialized) && guestSlot == old(guestSlot)
      ensures if newQuantity <= 0 then
                o == Outcome(true, NoMessage) && items == Without(old(items), productId)
              else if newQuantity > stock then
                o == Outcome(false, QuantityUnavailable(stock)) && items == old(items)
              else
                o == Outcome(true, NoMessage) && items == SetQuantity(old(items), productId, newQuantity)
      ensures forall k :: k != productId ==> Get(items, k) == Get(old(items), k)
      ensures UniqueIds(old(items)) ==> UniqueIds(items)
      ensures Positive(old(items)) ==> Positive(items)
    {
      if newQuantity <= 0 {
        var _ := RemoveFromCart(productId, "المنتج");
        return Outcome(true, NoMessage);
      }
      if newQuantity > stock {
        return Outcome(false, QuantityUnavailable(stock));
      }
      items := SetQuantity(items, productId, newQuantity);
      o := Outcome(true, NoMessage);
    }

    /** `removeFromCart(productId, productName)`: always succeeds. */
    method RemoveFromCart(productId: string, productName: string) returns (o: Outcome)
      modifies this
      ensures isInitialized == old(isInitialized) && guestSlot == old(guestSlot)
      ensures o == Outcome(true, Removed(productName))
      ensures items == Without(old(items), productId)
      ensures productId !in Ids(items)
    {
      items := Without(items, productId);
      o := Outcome(true, Removed(productName));
    }

    /** `clearCart(user)`: empties the ledger; for a signed-in user the remote
        row is to be deleted (the returned id), otherwise the guest key is removed. */
    method ClearCart(user: Option<string>) returns (deleteRemoteFor: Option<string>)
      modifies this
      ensures items == [] && isInitialized == old(isInitialized)
      ensures deleteRemoteFor == user
      ensures guestSlot == if user.Some? then old(guestSlot) else None
    {
      items := [];
      if user.Some? {
        deleteRemoteFor := user;
      } else {
        guestSlot := None;
        deleteRemoteFor := None;
      }
    }

    /** `loadGuestCart()`: adopts the guest cart, or the empty cart. */
    method LoadGuestCart()
      modifies this
      ensures items == GuestItems(guestSlot)
      ensures isInitialized == old(isInitialized) && guestSlot == old(guestSlot)
    {
      items := GuestItems(guestSlot);
    }

    /** `mergeAndSyncCarts(user)`: on a read error other than "no row" nothing
        changes; a non-empty guest cart is added into the remote one and the
        guest key removed; otherwise the remote cart is adopted as it is. */
    method MergeAndSyncCarts(fetch: FetchResult)
      modifies this
      ensures isInitialized == old(isInitialized)
      ensures var guest := GuestItems(old(guestSlot));
              if fetch.FetchError? then
                items == old(items) && guestSlot == old(guestSlot)
              else if |guest| > 0 then
                items == Merge(RemoteItems(fetch), guest) && guestSlot == None
              else
                items == RemoteItems(fetch) && guestSlot == old(guestSlot)
    {
      if fetch.FetchError? {
        return;
      }
      var dbCart := RemoteItems(fetch);
      var guest := GuestItems(guestSlot);
      if |guest| > 0 {
        var merged := MergeCarts(dbCart, guest);
        items := merged;
        guestSlot := None;
      } else {
        items := dbCart;
      }
    }

    /** `initializeCart(user)`: only the first call does anything; on it a
        signed-in user goes through `MergeAndSyncCarts` and a guest loads the
        guest cart. Every later call, also after a sign-in, leaves the cart alone. */
    method InitializeCart(user: Option<string>, fetch: FetchResult)
      modifies this
      ensures isInitialized
      ensures old(isInitialized) ==> items == old(items) && guestSlot == old(guestSlot)
      ensures !old(isInitialized) && user.None? ==> items == GuestItems(old(guestSlot)) && guestSlot == old(guestSlot)
      ensures !old(isInitialized) && user.Some? ==>
                var guest := GuestItems(old(guestSlot));
                if fetch.FetchError? then
                  items == old(items) && guestSlot == old(guestSlot)
                else if |guest| > 0 then
                  items == Merge(RemoteItems(fetch), guest) && guestSlot == None
                else
                  items == RemoteItems(fetch) && guestSlot == old(guestSlot)
    {
      if isInitialized {
        return;
      }
      if user.Some? {
        MergeAndSyncCarts(fetch);
      } else {
        LoadGuestCart();
      }
      isInitialized := true;
    }
  }

  /** The stock-limit walk-through: with stock 5, adding 3 succeeds, adding 3
      more fails, setting 5 succeeds and setting 6 fails; the cart holds 3, 3,
      5 and 5 units after each step. */
  method StockLimitScenario() returns (held: seq<int>, succeeded: seq<bool>)
    ensures held == [3, 3, 5, 5]
    ensures succeeded == [true, false, true, false]
  {
    var p := Product("P", "قلم", "p", "", 10.0, None, SubCategory("s", "", "", "c"), [],
                     Ratings(0.0, 0), false, false, None, 5, None, None, None);
    var cart := new Cart(None);
    var a := cart.AddToCart(p, 3);
    var q1 := Get(cart.items, "P");
    var b := cart.AddToCart(p, 3);
    var q2 := Get(cart.items, "P");
    var c := cart.UpdateQuantity("P", 5, 5);
    var q3 := Get(cart.items, "P");
    var d := cart.UpdateQuantity("P", 6, 5);
    var q4 := Get(cart.items, "P");
    held := [q1, q2, q3, q4];
    succeeded := [a.success, b.success, c.success, d.success];
  }

  /** Signing in with no remote cart adopts a guest cart of two distinct
      products exactly, and removes the guest key. */
  method GuestSignInScenario() returns (adopted: seq<CartItem>, guestCleared: bool)
    ensures adopted == [CartItem("A", 1), CartItem("B", 2)]
    ensures guestCleared
  {
    var guest := [CartItem("A", 1), CartItem("B", 2)];
    var cart := new Cart(Some(guest));
    cart.InitializeCart(Some("u1"), NoRow);
    MergeIntoEmpty(guest);
    adopted := cart.items;
    guestCleared := cart.guestSlot == None;
  }

  /** `isInitialized` is never reset: a store first initialised for a guest
      keeps the guest cart, unmerged and still stored, when the same session
      later initialises again with a signed-in user. */
  method LateSignInScenario() returns (held: seq<CartItem>, guestKept: bool)
    ensures held == [CartItem("A", 1)]
    ensures guestKept
  {
    var guest := [CartItem("A", 1)];
    var cart := new Cart(Some(guest));
    cart.InitializeCart(None, NoRow);
    cart.InitializeCart(Some("u1"), Row(Some([CartItem("B", 2)])));
    held := cart.items;
    guestKept := cart.guestSlot == Some(guest);
  }
}

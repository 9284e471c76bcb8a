/** The storefront's records, one datatype per interface or union of types.ts.
    Prices, ratings and weights are `real`; the source's `number` is a double
    and floating-point rounding is not modelled. Optional fields are `Option`s. */
module Types {

  datatype Option<+T> = None | Some(value: T)

  datatype Image = Image(url: string, alt: string)

  datatype Ratings = Ratings(average: real, count: int)

  datatype Category = Category(id: string, nameAr: string, slug: string, image: string)

  datatype SubCategory = SubCategory(id: string, nameAr: string, slug: string, mainCategoryId: string)

  /** A catalogue product. `originalPrice`, `colors`, `weight`, `dimensions` and
      `material` are optional; everything else is mandatory. */
  datatype Product = Product(
    id: string,
    nameAr: string,
    slug: string,
    description: string,
    price: real,
    originalPrice: Option<real>,
    subCategory: SubCategory,
    images: seq<Image>,
    ratings: Ratings,
    isNew: bool,
    isBestseller: bool,
    colors: Option<seq<string>>,
    stock: int,
    weight: Option<real>,
    dimensions: Option<string>,
    material: Option<string>)

  /** One cart line: a product id and a quantity. */
  datatype CartItem = CartItem(productId: string, quantity: int)

  /** The only payment method is cash on delivery. */
  datatype PaymentMethod = Cod

  datatype OrderStatus = Processing | Shipped | Delivered | Cancelled

  datatype Order = Order(
    id: string,
    userId: Option<string>,
    customerName: string,
    address: string,
    phone: string,
    date: string,
    total: real,
    status: OrderStatus,
    items: seq<CartItem>,
    paymentMethod: PaymentMethod)

  /** `Omit<Order, 'id' | 'date' | 'status'>`: what the checkout submits. */
  datatype OrderDraft = OrderDraft(
    userId: Option<string>,
    customerName: string,
    address: string,
    phone: string,
    total: real,
    items: seq<CartItem>,
    paymentMethod: PaymentMethod)

  /** The row sent to the `orders` table: the draft plus a date and a status. */
  datatype NewOrder = NewOrder(draft: OrderDraft, date: string, status: OrderStatus)

  datatype Review = Review(
    id: string,
    productId: string,
    userId: string,
    userName: string,
    userAvatarUrl: Option<string>,
    rating: int,
    reviewText: string,
    createdAt: string)

  datatype Sender = FromUser | FromAdmin

  datatype MessageStatus = MsgSent | MsgDelivered | MsgRead

  datatype ChatMessage = ChatMessage(
    id: string,
    conversationId: string,
    sender: Sender,
    text: string,
    timestamp: int,
    status: Option<MessageStatus>)

  datatype ChatConversation = ChatConversation(
    id: string,
    userName: string,
    lastMessage: string,
    lastTimestamp: int,
    unreadUser: int,
    unreadAdmin: int,
    isUserTyping: Option<bool>,
    isAdminTyping: Option<bool>)

  datatype Page =
    | Home | Products | ProductDetail | Deals | Cart | Checkout | OrderConfirmation
    | AdminConsole | OrdersHistory | Wishlist | Auth | Privacy | About | Terms

  /** The route name a page is known by in links and in the page state. */
  function PageName(p: Page): string
  {
    match p
    case Home => "home"
    case Products => "products"
    case ProductDetail => "productDetail"
    case Deals => "deals"
    case Cart => "cart"
    case Checkout => "checkout"
    case OrderConfirmation => "orderConfirmation"
    case AdminConsole => "admin"
    case OrdersHistory => "ordersHistory"
    case Wishlist => "wishlist"
    case Auth => "auth"
    case Privacy => "privacy"
    case About => "about"
    case Terms => "terms"
  }

  /** The page a link names; a name no page has shows the home page, as the
      page switch's default case does. */
  function PageNamed(t: string): (p: Page)
    ensures t == PageName(p) || (p == Home && forall q :: t != PageName(q))
  {
    if t == "products" then Products
    else if t == "productDetail" then ProductDetail
    else if t == "deals" then Deals
    else if t == "cart" then Cart
    else if t == "checkout" then Checkout
    else if t == "orderConfirmation" then OrderConfirmation
    else if t == "admin" then AdminConsole
    else if t == "ordersHistory" then OrdersHistory
    else if t == "wishlist" then Wishlist
    else if t == "auth" then Auth
    else if t == "privacy" then Privacy
    else if t == "about" then About
    else if t == "terms" then Terms
    else Home
  }

  /** Every page is reached by its own name. */
  lemma PageNameRoundTrip(p: Page)
    ensures PageNamed(PageName(p)) == p
  {
  }

  // --- Homepage content ---

  datatype LinkType = PageLink | CategoryLink

  datatype TextLayout = TextLeft | TextCenter | TextRight

  /** A banner links to a page or to a category id (`link`), as `linkType` says. */
  datatype BannerContent = BannerContent(
    enabled: bool,
    image: string,
    title: string,
    subtitle: string,
    buttonText: string,
    link: string,
    linkType: LinkType,
    layout: TextLayout)

  datatype CarouselFilter = ByBestseller | ByNew | BySale

  datatype CarouselLayout = DefaultLayout | StackedCard

  datatype BannerType = Full | Split

  /** The four kinds of homepage section and their own fields. */
  datatype SectionBody =
    | Hero(banners: seq<BannerContent>)
    | CategoryGrid(title: string, categoryIds: seq<string>)
    | ProductCarousel(title: string, filter: CarouselFilter, layout: CarouselLayout, linkToPage: Page)
    | PromoBanner(bannerType: BannerType, content: BannerContent)

  /** Every section, whatever its kind, has a string id and an enabled flag. */
  datatype HomePageSection = HomePageSection(id: string, enabled: bool, body: SectionBody)

  datatype SiteContent = SiteContent(sections: seq<HomePageSection>, bestDealProductId: Option<string>)

  datatype SectionKind = HeroKind | CategoryGridKind | ProductCarouselKind | PromoBannerKind

  function KindOf(s: HomePageSection): SectionKind
  {
    match s.body
    case Hero(_) => HeroKind
    case CategoryGrid(_, _) => CategoryGridKind
    case ProductCarousel(_, _, _, _) => ProductCarouselKind
    case PromoBanner(_, _) => PromoBannerKind
  }

  /** `xs.find(x => key(x) === id)`: the first element whose id is `id`. */
  function FindById<T(==)>(xs: seq<T>, key: T -> string, id: string): (r: Option<T>)
    ensures r.None? <==> forall x :: x in xs ==> key(x) != id
    ensures r.Some? ==> exists i :: 0 <= i < |xs| && xs[i] == r.value && key(r.value) == id
                          && forall j :: 0 <= j < i ==> key(xs[j]) != id
    decreases |xs|
  {
    if xs == [] then None
    else if key(xs[0]) == id then Some(xs[0])
    else
      var r := FindById(xs[1..], key, id);
      if r.Some? then
        var i :| 0 <= i < |xs[1..]| && xs[1..][i] == r.value && key(r.value) == id
                 && forall j :: 0 <= j < i ==> key(xs[1..][j]) != id;
        assert xs[i + 1] == r.value;
        assert forall j :: 0 <= j < i + 1 ==> key(xs[j]) != id by {
          forall j | 0 <= j < i + 1 ensures key(xs[j]) != id {
            if j > 0 {
              assert xs[j] == xs[1..][j - 1];
            }
          }
        }
        r
      else r
  }

  function ProductId(p: Product): string { p.id }

  function CategoryId(c: Category): string { c.id }

  function SubCategoryId(sc: SubCategory): string { sc.id }

  function ConversationId(c: ChatConversation): string { c.id }

  /** `products.find(p => p.id === id)`. */
  function FindProduct(ps: seq<Product>, id: string): Option<Product>
  {
    FindById(ps, ProductId, id)
  }

  /** `categories.find(c => c.id === id)`. */
  function FindCategory(cs: seq<Category>, id: string): Option<Category>
  {
    FindById(cs, CategoryId, id)
  }

  /** `subCategories.find(sc => sc.id === id)`. */
  function FindSubCategory(scs: seq<SubCategory>, id: string): Option<SubCategory>
  {
    FindById(scs, SubCategoryId, id)
  }

  /** `conversations.find(c => c.id === id)`. */
  function FindConversation(cs: seq<ChatConversation>, id: string): Option<ChatConversation>
  {
    FindById(cs, ConversationId, id)
  }

  /** `if (window.confirm(...)) act(x)`: the request goes through only when
      the user accepts the confirmation dialog. */
  function IfConfirmed<T>(confirmed: bool, x: T): (r: Option<T>)
    ensures r.Some? <==> confirmed
    ensures r.Some? ==> r.value == x
  {
    if confirmed then Some(x) else None
  }

  // --- JavaScript truthiness of the optional fields ---

  /** `if (x)` on an optional number: present and not zero. */
  predicate NumberTruthy(x: Option<real>)
  {
    x.Some? && x.value != 0.0
  }

  /** `if (x)` on an optional string: present and not empty. */
  predicate TextTruthy(x: Option<string>)
  {
    x.Some? && x.value != ""
  }

  // --- Order status as stored text ---

  function StatusText(s: OrderStatus): string
  {
    match s
    case Processing => "Processing"
    case Shipped => "Shipped"
    case Delivered => "Delivered"
    case Cancelled => "Cancelled"
  }

  /** Reads a stored status; text naming none of the four statuses is shown as
      Processing, the badges' fallback. */
  function StatusFromText(t: string): (s: OrderStatus)
    ensures t == StatusText(s) || (s == Processing && forall s' :: t != StatusText(s'))
  {
    if t == "Shipped" then Shipped
    else if t == "Delivered" then Delivered
    else if t == "Cancelled" then Cancelled
    else Processing
  }

  /** Reading back the text of a status gives that status. */
  lemma StatusTextRoundTrip(s: OrderStatus)
    ensures StatusFromText(StatusText(s)) == s
  {
  }
}

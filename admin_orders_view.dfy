/** The admin's order list (components/admin/OrdersView.tsx): the status
    filter, the status badge with its fallback, and the requests its
    controls send. */
module OrdersView {
  import opened Types
  import opened Seqs

  /** `All` or one status. */
  datatype StatusFilter = All | Only(status: OrderStatus)

  /** The filter buttons, in order. */
  const FilterOptions: seq<StatusFilter> := [All, Only(Processing), Only(Shipped), Only(Delivered), Only(Cancelled)]

  function HasStatus(s: OrderStatus): Order -> bool
  {
    (o: Order) => o.status == s
  }

  /** `filteredOrders`. */
  function Filtered(orders: seq<Order>, f: StatusFilter): (r: seq<Order>)
    ensures f.All? ==> r == orders
    ensures f.Only? ==> forall o :: o in r <==> o in orders && o.status == f.status
    ensures Subsequence(r, orders)
  {
    if f.All? then
      SubsequenceRefl(orders);
      orders
    else
      FilterIsSubsequence(orders, HasStatus(f.status));
      Filter(orders, HasStatus(f.status))
  }

  /** A badge's label and colour class. */
  datatype Badge = Badge(text: string, color: string)

  function BadgeOf(s: OrderStatus): Badge
  {
    match s
    case Processing => Badge("قيد التجهيز", "bg-yellow-100 text-yellow-800")
    case Shipped => Badge("تم الشحن", "bg-blue-100 text-blue-800")
    case Delivered => Badge("تم التوصيل", "bg-green-100 text-green-800")
    case Cancelled => Badge("ملغي", "bg-red-100 text-red-800")
  }

  /** `StatusBadge` over the stored status text: a known status shows its own
      badge, anything else the Processing one. */
  function BadgeFor(statusText: string): (b: Badge)
    ensures forall s :: statusText == StatusText(s) ==> b == BadgeOf(s)
    ensures (forall s :: statusText != StatusText(s)) ==> b == BadgeOf(Processing)
  {
    BadgeOf(StatusFromText(statusText))
  }

  /** The values of the status picker's options. */
  const StatusOptions: seq<string> := [StatusText(Processing), StatusText(Shipped), StatusText(Delivered), StatusText(Cancelled)]

  /** Picking an option asks to set that order to the status it names. */
  datatype StatusRequest = StatusRequest(orderId: string, status: OrderStatus)

  function StatusChange(order: Order, option: string): (r: StatusRequest)
    requires option in StatusOptions
    ensures r.orderId == order.id && StatusText(r.status) == option
  {
    StatusRequest(order.id, StatusFromText(option))
  }

  /** `handleDelete`: the id goes to the delete action only when confirmed. */
  function DeleteRequest(orderId: string, confirmed: bool): (r: Option<string>)
    ensures r.Some? <==> confirmed
    ensures r.Some? ==> r.value == orderId
  {
    IfConfirmed(confirmed, orderId)
  }
}

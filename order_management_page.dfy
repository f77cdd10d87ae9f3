/**
 * `OrderManagementPage.ts`: the admin order list (a view of the shop's orders), its status
 * translation in both directions, the search filter and the selection checkboxes.
 */
module OrderManagementPage {
  import opened Wrappers
  import opened Text
  import opened Records
  import opened Sorting
  import opened Persistence
  import opened Orders
  import opened OrderDetailModal

  /**
   * `mapOrderStatus`: the shop status, compared in lower case, as one of the four admin statuses;
   * `cancelled` is shown as `delivered` and anything unknown as `pending`.
   */
  function MapOrderStatus(status: string): (a: string)
    ensures a in AdminStatuses
    ensures a == "processing" <==> Lower(status) == "processing"
    ensures a == "shipping" <==> Lower(status) == "shipped"
    ensures a == "delivered" <==> Lower(status) == "delivered" || Lower(status) == "cancelled"
    ensures a == "pending" <==> Lower(status) !in {"processing", "shipped", "delivered", "cancelled"}
  {
    match Lower(status)
    case "processing" => "processing"
    case "shipped" => "shipping"
    case "delivered" => "delivered"
    case "cancelled" => "delivered"
    case _ => "pending"
  }

  /**
   * `mapToOriginalStatus`: an admin status, compared in lower case, back in the shop's words;
   * any other text is returned as given (not lowercased).
   */
  function MapToOriginalStatus(adminStatus: string): (s: string)
    ensures Lower(adminStatus) == "pending" ==> s == "pending"
    ensures Lower(adminStatus) == "processing" ==> s == "processing"
    ensures Lower(adminStatus) == "shipping" ==> s == "shipped"
    ensures Lower(adminStatus) == "delivered" ==> s == "delivered"
    ensures Lower(adminStatus) !in AdminStatuses ==> s == adminStatus
  {
    match Lower(adminStatus)
    case "pending" => "pending"
    case "processing" => "processing"
    case "shipping" => "shipped"
    case "delivered" => "delivered"
    case _ => adminStatus
  }

  /** The translation ignores case: both maps give the same answer on the lowercased text. */
  lemma MapOrderStatusIgnoresCase(status: string)
    ensures MapOrderStatus(Lower(status)) == MapOrderStatus(status)
  {
    LowerIdempotent(status);
  }

  /** The four shop statuses other than `cancelled` survive the trip to the admin page and back (in lower case). */
  lemma ShopStatusRoundTrip(status: string)
    requires Lower(status) in {"pending", "processing", "shipped", "delivered"}
    ensures MapToOriginalStatus(MapOrderStatus(status)) == Lower(status)
  {
    var a := MapOrderStatus(status);
    assert Lower(a) == a by {
      assert a in AdminStatuses;
      assert Lower("pending") == "pending";
      assert Lower("processing") == "processing";
      assert Lower("shipping") == "shipping";
      assert Lower("delivered") == "delivered";
    }
  }

  /** The map is lossy: a cancelled order saved back from the admin page becomes delivered. */
  lemma CancelledIsLost()
    ensures MapOrderStatus("cancelled") == "delivered"
    ensures MapToOriginalStatus(MapOrderStatus("cancelled")) == "delivered"
  {
    assert Lower("cancelled") == "cancelled";
    assert Lower("delivered") == "delivered";
  }

  /** Every admin status survives the trip to the shop's words and back. */
  lemma AdminStatusRoundTrip(a: string)
    requires a in AdminStatuses
    ensures MapOrderStatus(MapToOriginalStatus(a)) == a
  {
    assert Lower("pending") == "pending";
    assert Lower("processing") == "processing";
    assert Lower("shipping") == "shipping";
    assert Lower("delivered") == "delivered";
    assert Lower("shipped") == "shipped";
  }

  /** `item.name || item.code` */
  function ItemName(item: OrderItem): string {
    if item.name != "" then item.name else item.code
  }

  /**
   * One element of the `rawOrders.map(...)` in `loadOrders`: the order number (or the id's text
   * when that is empty) as id, the customer's contact, the lines, the grand total, the translated
   * status and the address line. `time` parses the `createdAt` text into milliseconds.
   */
  function AdminView(o: Order, time: string -> int): (v: AdminOrder)
    ensures v.id == if o.orderNumber != "" then o.orderNumber else IntToString(o.id)
    ensures v.status == MapOrderStatus(o.status) && v.status in AdminStatuses
    ensures v.total == o.totals.total && v.date == time(o.createdAt)
    ensures v.customerName == o.customerInfo.fullName && v.customerEmail == o.customerInfo.email
    ensures v.customerPhone == o.customerInfo.phone
    ensures v.shippingAddress == o.customerInfo.address + ", " + o.customerInfo.ward + ", " + o.customerInfo.district + ", " + o.customerInfo.city
    ensures |v.items| == |o.items| &&
            forall i :: 0 <= i < |o.items| ==>
              v.items[i] == AdminOrderItem(IntToString(o.items[i].id), ItemName(o.items[i]), o.items[i].price,
                                           o.items[i].quantity, o.items[i].img)
  {
    AdminOrder(
      if o.orderNumber != "" then o.orderNumber else IntToString(o.id),
      time(o.createdAt),
      o.customerInfo.fullName,
      o.customerInfo.email,
      o.customerInfo.phone,
      seq(|o.items|, i requires 0 <= i < |o.items| =>
        AdminOrderItem(IntToString(o.items[i].id), ItemName(o.items[i]), o.items[i].price, o.items[i].quantity, o.items[i].img)),
      o.totals.total,
      MapOrderStatus(o.status),
      o.customerInfo.address + ", " + o.customerInfo.ward + ", " + o.customerInfo.district + ", " + o.customerInfo.city)
  }

  function AdminViews(orders: seq<Order>, time: string -> int): (vs: seq<AdminOrder>)
    ensures |vs| == |orders| && forall i :: 0 <= i < |orders| ==> vs[i] == AdminView(orders[i], time)
  {
    seq(|orders|, i requires 0 <= i < |orders| => AdminView(orders[i], time))
  }

  function OrderDate(o: AdminOrder): int {
    o.date
  }

  /** The search condition: the lowercased term inside the lowercased id, customer name or email. */
  predicate OrderMatches(o: AdminOrder, term: string) {
    Contains(Lower(o.id), term) || Contains(Lower(o.customerName), term) || Contains(Lower(o.customerEmail), term)
  }

  /**
   * `filteredOrders`: everything when the trimmed term is empty; otherwise the orders matching the
   * lowercased term, which is NOT trimmed for the comparison, in list order.
   */
  function FilteredOrders(orders: seq<AdminOrder>, searchTerm: string): (r: seq<AdminOrder>)
    ensures Trim(searchTerm) == "" ==> r == orders
    ensures Trim(searchTerm) != "" ==>
              (forall o :: o in r <==> o in orders && OrderMatches(o, Lower(searchTerm))) && IsSubsequence(r, orders)
  {
    if Trim(searchTerm) == "" then orders
    else
      var keep := (o: AdminOrder) => OrderMatches(o, Lower(searchTerm));
      FilterMembers(orders, keep);
      FilterSubsequence(orders, keep);
      Filter(orders, keep)
  }

  /** The id of an admin row, the key the selection is kept by. */
  function AdminOrderId(o: AdminOrder): string {
    o.id
  }

  /** `getTotalItems`: `reduce((total, item) => total + item.quantity, 0)`, read left to right. */
  function QuantityFrom(acc: int, items: seq<AdminOrderItem>): int
    decreases |items|
  {
    if items == [] then acc else QuantityFrom(acc + items[0].quantity, items[1..])
  }

  function Quantity(items: seq<AdminOrderItem>): int {
    if items == [] then 0 else items[0].quantity + Quantity(items[1..])
  }

  /** The left-to-right reduce is the sum of the line quantities. */
  lemma {:induction false} QuantityFromIsSum(acc: int, items: seq<AdminOrderItem>)
    ensures QuantityFrom(acc, items) == acc + Quantity(items)
    decreases |items|
  {
    if items != [] {
      QuantityFromIsSum(acc + items[0].quantity, items[1..]);
    }
  }

  /** `getTotalItems(order)` */
  function GetTotalItems(order: AdminOrder): (n: int)
    ensures n == Quantity(order.items)
  {
    QuantityFromIsSum(0, order.items);
    QuantityFrom(0, order.items)
  }

  class OrderManagementPageComponent {
    const orderService: OrderService
    var searchTerm: string
    var selectAll: bool
    var selectedOrders: set<string>
    var orders: seq<AdminOrder>

    constructor(orderService: OrderService)
      ensures this.orderService == orderService
      ensures searchTerm == "" && !selectAll && selectedOrders == {} && orders == []
    {
      this.orderService := orderService;
      searchTerm := "";
      selectAll := false;
      selectedOrders := {};
      orders := [];
    }

    function Filtered(): seq<AdminOrder>
      reads this
    {
      FilteredOrders(orders, searchTerm)
    }

    /** `loadOrders`: the service's current list in the admin view, newest first. */
    method LoadOrders(time: string -> int)
      modifies this
      ensures orders == SortDesc(AdminViews(orderService.orders, time), OrderDate)
      ensures searchTerm == old(searchTerm) && selectAll == old(selectAll) && selectedOrders == old(selectedOrders)
    {
      orders := SortDesc(AdminViews(orderService.orders, time), OrderDate);
    }

    /**
     * `toggleSelectAll`, run after the checkbox has set `selectAll`: every listed order is
     * selected, or the selection is cleared.
     */
    method ToggleSelectAll()
      modifies this
      ensures selectedOrders == if selectAll then KeySet(Filtered(), AdminOrderId) else {}
      ensures orders == old(orders) && searchTerm == old(searchTerm) && selectAll == old(selectAll)
    {
      if selectAll {
        selectedOrders := KeySet(FilteredOrders(orders, searchTerm), AdminOrderId);
      } else {
        selectedOrders := {};
      }
    }

    /**
     * `toggleOrderSelection`: exactly that id flips, and `selectAll` becomes whether the selection
     * is as large as the listed orders.
     */
    method ToggleOrderSelection(orderId: string)
      modifies this
      ensures selectedOrders == Toggled(old(selectedOrders), orderId)
      ensures selectAll == (|selectedOrders| == |FilteredOrders(orders, searchTerm)|)
      ensures orders == old(orders) && searchTerm == old(searchTerm)
    {
      var listed := FilteredOrders(orders, searchTerm);
      var selection := Toggled(selectedOrders, orderId);
      selectedOrders, selectAll := selection, |selection| == |listed|;
      assert listed == FilteredOrders(orders, searchTerm);
    }

    /**
     * `updateOrderStatus`: for an order on the page, the service changes the stored order with that
     * order number to the shop's word for the status. The service publishes its new list at once,
     * and the page's live subscription from `loadOrders` rebuilds every row from it, so the row
     * shows the status mapped back from the stored one; the later write to the old row object
     * changes nothing on the page.
     */
    method UpdateOrderStatus(update: StatusUpdate, writeOk: bool, time: string -> int)
      modifies this, orderService, orderService.storage
      ensures searchTerm == old(searchTerm) && selectAll == old(selectAll) && selectedOrders == old(selectedOrders)
      ensures match FirstIndex(old(orders), (o: AdminOrder) => o.id == update.orderId)
              case None =>
                orders == old(orders) && orderService.orders == old(orderService.orders) &&
                orderService.storage.entries == old(orderService.storage.entries)
              case Some(k) =>
                match FirstIndex(old(orderService.orders), (o: Order) => o.orderNumber == update.orderId)
                case None =>
                  orders == old(orders) && orderService.orders == old(orderService.orders) &&
                  orderService.storage.entries == old(orderService.storage.entries)
                case Some(j) =>
                  orders == SortDesc(AdminViews(orderService.orders, time), OrderDate) &&
                  orderService.orders == WithStatus(old(orderService.orders), j, MapToOriginalStatus(update.status)) &&
                  orderService.storage.entries ==
                    Written(old(orderService.storage.entries), OrdersKey, orderService.codec.encode(orderService.orders),
                            orderService.browser && writeOk)
    {
      var k := FirstIndex(orders, (o: AdminOrder) => o.id == update.orderId);
      if k.Some? {
        var originalStatus := MapToOriginalStatus(update.status);
        var updatedOrder := orderService.UpdateOrderStatus(update.orderId, originalStatus, writeOk);
        if updatedOrder.Some? {
          LoadOrders(time);
        }
      }
    }
  }

  /**
   * After a status update the page lists a rebuilt row for the updated order, and that row shows
   * the admin word of the stored status; an admin status shows as picked.
   */
  lemma {:induction false} UpdatedRowStatus(orders: seq<Order>, j: nat, status: string, time: string -> int)
    requires j < |orders|
    ensures var stored := WithStatus(orders, j, MapToOriginalStatus(status));
            var row := AdminView(stored[j], time);
            row in SortDesc(AdminViews(stored, time), OrderDate) &&
            row.status == MapOrderStatus(MapToOriginalStatus(status)) &&
            (status in AdminStatuses ==> row.status == status)
  {
    var stored := WithStatus(orders, j, MapToOriginalStatus(status));
    var views := AdminViews(stored, time);
    assert views[j] in multiset(views);
    if status in AdminStatuses {
      AdminStatusRoundTrip(status);
    }
  }

  /** Other text is shown as the shop's word mapped back: `Shipping` as `shipping`, `cancelled` as `delivered`. */
  lemma UpdatedRowExamples()
    ensures MapOrderStatus(MapToOriginalStatus("Shipping")) == "shipping"
    ensures MapOrderStatus(MapToOriginalStatus("cancelled")) == "delivered"
  {
    assert Lower("Shipping") == "shipping";
    assert Lower("shipped") == "shipped";
    assert Lower("cancelled") == "cancelled";
    assert Lower("delivered") == "delivered";
  }
}

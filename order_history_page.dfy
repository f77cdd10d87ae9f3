/**
 * `OrderHistoryPage.ts`: the customer's order list, newest first, with the texts it shows for
 * statuses, payment and shipping methods. It loads only for a logged-in user.
 */
module OrderHistoryPage {
  import opened Wrappers
  import opened Text
  import opened Persistence
  import opened Sorting
  import opened Orders
  import opened Auth

  const KnownStatuses := {"pending", "processing", "shipped", "delivered", "cancelled"}
  const MaxAttempts := 3

  /** The class names are the prefix `status-` and the lower-case status. */
  lemma ClassNames()
    ensures "status-" + "pending" == "status-pending" && "status-" + "processing" == "status-processing"
    ensures "status-" + "shipped" == "status-shipped" && "status-" + "delivered" == "status-delivered"
    ensures "status-" + "cancelled" == "status-cancelled"
  {
  }

  /** `getStatusClass`: the CSS class of a status, compared in lower case; unknown ones look pending. */
  function GetStatusClass(status: string): (cls: string)
    ensures Lower(status) in KnownStatuses ==> cls == "status-" + Lower(status)
    ensures Lower(status) !in KnownStatuses ==> cls == "status-pending"
  {
    ClassNames();
    match Lower(status)
    case "pending" => "status-pending"
    case "processing" => "status-processing"
    case "shipped" => "status-shipped"
    case "delivered" => "status-delivered"
    case "cancelled" => "status-cancelled"
    case _ => "status-pending"
  }

  /** `getStatusText`: the status capitalized, compared in lower case; `Unknown` for anything else. */
  function GetStatusText(status: string): (text: string)
    ensures text == "Unknown" <==> Lower(status) !in KnownStatuses
    ensures Lower(status) in KnownStatuses ==> text in {"Pending", "Processing", "Shipped", "Delivered", "Cancelled"}
  {
    match Lower(status)
    case "pending" => "Pending"
    case "processing" => "Processing"
    case "shipped" => "Shipped"
    case "delivered" => "Delivered"
    case "cancelled" => "Cancelled"
    case _ => "Unknown"
  }

  /** Both labels ignore case. */
  lemma LabelsIgnoreCase(status: string)
    ensures GetStatusClass(Lower(status)) == GetStatusClass(status)
    ensures GetStatusText(Lower(status)) == GetStatusText(status)
  {
    LowerIdempotent(status);
  }

  /** For a known status the class is the lower-cased text; an unknown one is styled pending but named `Unknown`. */
  lemma ClassMatchesText(status: string)
    ensures Lower(status) in KnownStatuses ==> GetStatusClass(status) == "status-" + Lower(GetStatusText(status))
    ensures Lower(status) !in KnownStatuses ==> GetStatusClass(status) == "status-pending" && GetStatusText(status) == "Unknown"
  {
    ClassNames();
    LowerLabels();
  }

  /** Each status text lower-cases to its status. */
  lemma LowerLabels()
    ensures Lower("Pending") == "pending" && Lower("Processing") == "processing"
    ensures Lower("Shipped") == "shipped" && Lower("Delivered") == "delivered"
    ensures Lower("Cancelled") == "cancelled"
  {
    assert Lower("Pending") == "pending";
    assert Lower("Processing") == "processing";
    assert Lower("Shipped") == "shipped";
    assert Lower("Delivered") == "delivered";
  }

  /** `getPaymentMethodText`: cash on delivery only for exactly `cod`. */
  function GetPaymentMethodText(paymentMethod: string): (text: string)
    ensures text == "Cash on Delivery" <==> paymentMethod == "cod"
    ensures text == "Bank Transfer" <==> paymentMethod != "cod"
  {
    if paymentMethod == "cod" then "Cash on Delivery" else "Bank Transfer"
  }

  /** `getShippingMethodText`: express only for exactly `express`. */
  function GetShippingMethodText(shippingMethod: string): (text: string)
    ensures text == "Express Delivery" <==> shippingMethod == "express"
    ensures text == "Standard Delivery" <==> shippingMethod != "express"
  {
    if shippingMethod == "express" then "Express Delivery" else "Standard Delivery"
  }

  /** The sort key: `new Date(createdAt).getTime()`, through the clock's parser `time`. */
  function CreatedAt(time: string -> int): Order -> int {
    (o: Order) => time(o.createdAt)
  }

  class OrderHistoryPageComponent {
    const orderService: OrderService
    const authService: AuthService
    var orders: seq<Order>
    var selectedOrder: Option<Order>
    var showOrderDetail: bool

    constructor(orderService: OrderService, authService: AuthService)
      ensures this.orderService == orderService && this.authService == authService
      ensures orders == [] && selectedOrder == None && !showOrderDetail
    {
      this.orderService := orderService;
      this.authService := authService;
      orders := [];
      selectedOrder := None;
      showOrderDetail := false;
    }

    /**
     * `loadAllOrders`: the service's list is sorted newest first in place, so the service's value
     * and the page show the same rearranged list.
     */
    method LoadAllOrders(time: string -> int)
      modifies this, orderService
      ensures orders == SortDesc(old(orderService.orders), CreatedAt(time)) && orderService.orders == orders
      ensures selectedOrder == old(selectedOrder) && showOrderDetail == old(showOrderDetail)
    {
      var sortedOrders := SortDesc(orderService.orders, CreatedAt(time));
      orderService.orders := sortedOrders;
      orders := sortedOrders;
    }

    /**
     * `checkAuthAndLoadOrders`: up to three lookups of the current user; the first that finds one
     * loads the orders, and when the last finds nobody the user is logged out. The delays between
     * attempts are not modelled, so nothing changes the session between them.
     */
    method CheckAuthAndLoadOrders(attempt: nat, time: string -> int) returns (nav: Nav)
      requires 1 <= attempt <= MaxAttempts
      modifies this, orderService, authService, authService.storage
      decreases MaxAttempts - attempt
      ensures var u := ResolveUser(old(authService.currentUser),
                                   ReadStored(authService.browser, old(authService.storage.entries), CurrentUserKey, authService.userCodec));
              if u.Some? then
                nav == NoNav && orders == SortDesc(old(orderService.orders), CreatedAt(time)) && orderService.orders == orders &&
                authService.currentUser == u && authService.storage.entries == old(authService.storage.entries)
              else
                nav == Navigate(["/login"]) && authService.currentUser == None && orders == old(orders) &&
                orderService.orders == old(orderService.orders) &&
                authService.storage.entries ==
                  if authService.browser then old(authService.storage.entries) - {CurrentUserKey} else old(authService.storage.entries)
      ensures authService.users == old(authService.users)
      ensures selectedOrder == old(selectedOrder) && showOrderDetail == old(showOrderDetail)
    {
      var currentUser := authService.GetCurrentUser();
      if currentUser.Some? {
        LoadAllOrders(time);
        nav := NoNav;
      } else if attempt < MaxAttempts {
        nav := CheckAuthAndLoadOrders(attempt + 1, time);
      } else {
        nav := authService.Logout();
      }
    }

    /**
     * `ngOnInit`: the session is re-read from storage first, so the orders load exactly when a
     * readable session is stored, and the user is sent to `/login` otherwise.
     */
    method NgOnInit(time: string -> int) returns (nav: Nav)
      modifies this, orderService, authService, authService.storage
      ensures var stored := ReadStored(authService.browser, old(authService.storage.entries), CurrentUserKey, authService.userCodec);
              if stored.Parsed? then
                nav == NoNav && orders == SortDesc(old(orderService.orders), CreatedAt(time)) &&
                orderService.orders == orders && authService.currentUser == Some(stored.value) &&
                authService.storage.entries == old(authService.storage.entries)
              else
                nav == Navigate(["/login"]) && authService.currentUser == None && orders == old(orders) &&
                orderService.orders == old(orderService.orders) &&
                authService.storage.entries ==
                  if authService.browser then old(authService.storage.entries) - {CurrentUserKey} else old(authService.storage.entries)
      ensures authService.users == old(authService.users)
      ensures selectedOrder == old(selectedOrder) && showOrderDetail == old(showOrderDetail)
    {
      authService.RefreshCurrentUser();
      nav := CheckAuthAndLoadOrders(1, time);
    }

    method ViewOrderDetail(order: Order)
      modifies this
      ensures selectedOrder == Some(order) && showOrderDetail && orders == old(orders)
    {
      selectedOrder := Some(order);
      showOrderDetail := true;
    }

    method CloseOrderDetail()
      modifies this
      ensures selectedOrder == None && !showOrderDetail && orders == old(orders)
    {
      showOrderDetail := false;
      selectedOrder := None;
    }
  }

  /** The list shown is the service's orders rearranged, newest first. */
  lemma ShownOrdersAreSorted(orders: seq<Order>, time: string -> int)
    ensures multiset(SortDesc(orders, CreatedAt(time))) == multiset(orders)
    ensures forall i, j :: 0 <= i < j < |orders| ==>
              time(SortDesc(orders, CreatedAt(time))[i].createdAt) >= time(SortDesc(orders, CreatedAt(time))[j].createdAt)
  {
    var r := SortDesc(orders, CreatedAt(time));
    forall i, j | 0 <= i < j < |orders|
      ensures time(r[i].createdAt) >= time(r[j].createdAt)
    {
      assert CreatedAt(time)(r[i]) >= CreatedAt(time)(r[j]);
    }
  }
}

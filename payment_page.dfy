/**
 * `PaymentPage.ts`: the checkout page. It prices the cart, builds the order from the selected
 * lines, hands it to the order service and, once it is saved, takes the bought lines out of the
 * cart and clears the selection. The clock is the `now` input (milliseconds since the epoch, read
 * once per handler) and `createdAt` is its ISO text.
 */
module PaymentPage {
  import opened Wrappers
  import opened Text
  import opened Records
  import opened Persistence
  import opened Cart
  import opened Wishlist
  import opened Orders
  import opened Auth
  import CartItemView

  const NothingSelected := "Please select items to purchase."
  const SaveFailed := "Error saving order. Please try again."
  const CodPlaced := "Order placed successfully! You will pay on delivery."
  const BankConfirmed := "Payment confirmed! Your order is being processed."
  const ExpressCost := 50000
  const StandardCost := 35000
  const VoucherAmount := 50000

  /** The `shipping` signal: express delivery costs 50000, any other choice 35000. */
  function ShippingCost(delivery: string): (cost: int)
    ensures cost == ExpressCost <==> delivery == "express"
    ensures cost == StandardCost <==> delivery != "express"
  {
    if delivery == "express" then ExpressCost else StandardCost
  }

  /** `applyVoucher`: any code with a non-blank character earns the fixed discount; a blank one none. */
  function VoucherDiscount(code: string): (discount: int)
    ensures discount == VoucherAmount <==> !Blank(code)
    ensures discount == 0 <==> Blank(code)
  {
    if Trim(code) != "" then VoucherAmount else 0
  }

  /** `'ORD' + Date.now().toString().slice(-6)`: the last six digits of the clock, or all of them. */
  function OrderNumber(now: nat): (n: string)
    ensures |n| > 3 && n[..3] == "ORD"
    ensures var digits := NatToString(now);
            |n| == 3 + (if |digits| < 6 then |digits| else 6) && digits == digits[..|digits| - (|n| - 3)] + n[3..]
    ensures forall i :: 3 <= i < |n| ==> IsDigit(n[i])
  {
    var digits := NatToString(now);
    var tail := if |digits| < 6 then digits else digits[|digits| - 6..];
    assert digits == digits[..|digits| - |tail|] + tail;
    "ORD" + tail
  }

  /** From the clock value 100000 on, every order number is `ORD` and exactly six digits. */
  lemma OrderNumberLength(now: nat)
    requires now >= 100000
    ensures |OrderNumber(now)| == 9
  {
    NatToStringLength(now, 5);
    assert Pow10(5) == 100000;
  }

  /** An order line: the cart line, named by its code when it has no name, with its line total. */
  function OrderLine(item: CartItem): (line: OrderItem)
    ensures line.name == (if item.name != "" then item.name else item.code)
    ensures line.totalPrice == LineTotal(item)
    ensures line.id == item.id && line.code == item.code && line.price == item.price
    ensures line.quantity == item.quantity && line.img == item.img
  {
    OrderItem(item.id, if item.name != "" then item.name else item.code, item.code, item.price, item.quantity,
              item.price * item.quantity, item.img)
  }

  function OrderLines(items: seq<CartItem>): (lines: seq<OrderItem>)
    ensures |lines| == |items| && forall i :: 0 <= i < |items| ==> lines[i] == OrderLine(items[i])
  {
    seq(|items|, i requires 0 <= i < |items| => OrderLine(items[i]))
  }

  /** The sum of the order lines' `totalPrice`. */
  function LinesTotal(lines: seq<OrderItem>): int {
    if lines == [] then 0 else lines[0].totalPrice + LinesTotal(lines[1..])
  }

  /** The order lines cost what the cart lines they come from cost. */
  lemma {:induction false} LinesTotalIsTotalPrice(items: seq<CartItem>)
    ensures LinesTotal(OrderLines(items)) == TotalPrice(items)
    decreases |items|
  {
    if items != [] {
      LinesTotalIsTotalPrice(items[1..]);
      assert OrderLines(items)[1..] == OrderLines(items[1..]);
    }
  }

  /** The `totals` record: the subtotal runs over every cart line, the total nets the discounts. */
  function OrderTotals(cart: seq<CartItem>, delivery: string, memberDiscount: int, couponDiscount: int): (t: Totals)
    ensures t.subtotal == TotalPrice(cart) && t.shipping == ShippingCost(delivery)
    ensures t.memberDiscount == memberDiscount && t.couponDiscount == couponDiscount
    ensures t.total == t.subtotal + t.shipping - t.memberDiscount - t.couponDiscount
  {
    var subtotal := TotalPrice(cart);
    var shipping := ShippingCost(delivery);
    Totals(subtotal, shipping, memberDiscount, couponDiscount, subtotal + shipping - memberDiscount - couponDiscount)
  }

  /** Choosing express delivery raises the total by 15000 whatever the cart holds. */
  lemma ExpressSurcharge(cart: seq<CartItem>, delivery: string, memberDiscount: int, couponDiscount: int)
    requires delivery != "express"
    ensures OrderTotals(cart, "express", memberDiscount, couponDiscount).total ==
            OrderTotals(cart, delivery, memberDiscount, couponDiscount).total + 15000
  {
  }

  /** The cart lines `removeSelectedItemsFromCart` leaves: the unselected ones, in cart order. */
  function Unselected(items: seq<CartItem>, selection: set<string>): (r: seq<CartItem>)
    ensures forall i :: 0 <= i < |r| ==> !IsSelected(r[i], selection)
    ensures IsSubsequence(r, items)
  {
    var keep := (x: CartItem) => !IsSelected(x, selection);
    FilterSubsequence(items, keep);
    Filter(items, keep)
  }

  /**
   * A checkout splits the cart in two: every line is either bought or stays, and the subtotal the
   * order records is the price of both parts, so unselected lines are charged in the totals although
   * they are not among the order's items.
   */
  lemma {:induction false} SubtotalCountsUnselected(items: seq<CartItem>, selection: set<string>)
    ensures TotalPrice(items) == SelectedPrice(items, selection) + TotalPrice(Unselected(items, selection))
    ensures |items| == |Selected(items, selection)| + |Unselected(items, selection)|
    decreases |items|
  {
    if items != [] {
      SubtotalCountsUnselected(items[1..], selection);
      var keep := (x: CartItem) => IsSelected(x, selection);
      var drop := (x: CartItem) => !IsSelected(x, selection);
      assert Selected(items, selection) == Filter(items, keep);
      assert Selected(items[1..], selection) == Filter(items[1..], keep);
      assert Unselected(items, selection) == Filter(items, drop);
      assert Unselected(items[1..], selection) == Filter(items[1..], drop);
    }
  }

  /**
   * With an unselected line of positive cost (and no negative line), the recorded subtotal exceeds
   * what the order's own lines cost.
   */
  lemma UnselectedLineIsCharged(items: seq<CartItem>, selection: set<string>, k: nat)
    requires k < |items| && !IsSelected(items[k], selection) && LineTotal(items[k]) > 0
    requires forall i :: 0 <= i < |items| ==> LineTotal(items[i]) >= 0
    ensures TotalPrice(items) > SelectedPrice(items, selection)
  {
    SubtotalCountsUnselected(items, selection);
    var u := Unselected(items, selection);
    var drop := (x: CartItem) => !IsSelected(x, selection);
    assert u == Filter(items, drop);
    FilterMembership(items, drop, items[k]);
    SubsequenceMembers(u, items);
    forall i | 0 <= i < |u|
      ensures LineTotal(u[i]) >= 0
    {
      assert u[i] in items;
    }
    PositiveLineCounts(u, items[k]);
  }

  /** A sum of non-negative line totals that includes a positive one is positive. */
  lemma {:induction false} PositiveLineCounts(items: seq<CartItem>, x: CartItem)
    requires x in items && LineTotal(x) > 0
    requires forall i :: 0 <= i < |items| ==> LineTotal(items[i]) >= 0
    ensures TotalPrice(items) > 0
    decreases |items|
  {
    if items[0] != x {
      PositiveLineCounts(items[1..], x);
    } else {
      NonNegativeTotal(items[1..]);
    }
  }

  lemma {:induction false} NonNegativeTotal(items: seq<CartItem>)
    requires forall i :: 0 <= i < |items| ==> LineTotal(items[i]) >= 0
    ensures TotalPrice(items) >= 0
    decreases |items|
  {
    if items != [] {
      NonNegativeTotal(items[1..]);
    }
  }

  /** The order `saveOrderAndRedirect` submits. */
  function PlacedOrder(now: nat, orderNumber: string, form: CustomerInfo, cart: seq<CartItem>, selection: set<string>,
                       delivery: string, payment: string, memberDiscount: int, couponDiscount: int,
                       status: string, createdAt: string): (o: Order)
    ensures o.id == now && o.customerInfo == form && o.createdAt == createdAt
    ensures o.orderNumber == if orderNumber != "" then orderNumber else OrderNumber(now)
    ensures o.items == OrderLines(Selected(cart, selection))
    ensures o.shipping == Shipping(delivery, ShippingCost(delivery))
    ensures o.payment == Payment(payment, status) && o.status == status
    ensures o.totals == OrderTotals(cart, delivery, memberDiscount, couponDiscount)
  {
    Order(now, if orderNumber != "" then orderNumber else OrderNumber(now), form,
          OrderLines(Selected(cart, selection)), Shipping(delivery, ShippingCost(delivery)),
          Payment(payment, status), OrderTotals(cart, delivery, memberDiscount, couponDiscount), createdAt, status)
  }

  /** The order's items are exactly the selected cart lines, in cart order, and cost their selected price. */
  lemma PlacedOrderItems(now: nat, orderNumber: string, form: CustomerInfo, cart: seq<CartItem>, selection: set<string>,
                         delivery: string, payment: string, memberDiscount: int, couponDiscount: int,
                         status: string, createdAt: string)
    ensures var o := PlacedOrder(now, orderNumber, form, cart, selection, delivery, payment, memberDiscount,
                                 couponDiscount, status, createdAt);
            |o.items| == |Selected(cart, selection)| &&
            (forall i :: 0 <= i < |o.items| ==> o.items[i].id == Selected(cart, selection)[i].id) &&
            LinesTotal(o.items) == SelectedPrice(cart, selection)
  {
    LinesTotalIsTotalPrice(Selected(cart, selection));
  }

  /** Removing the ids one after another, in order, as the `forEach` over `removeItem` does. */
  function RemoveEach(items: seq<CartItem>, ids: seq<int>): (r: seq<CartItem>)
    decreases |ids|
  {
    if ids == [] then items else AfterRemove(RemoveEach(items, ids[..|ids| - 1]), ids[|ids| - 1])
  }

  /** `removeItem` is a filter by a different id. */
  lemma {:induction false} AfterRemoveIsFilter(items: seq<CartItem>, itemId: int, keep: CartItem -> bool)
    requires forall x :: keep(x) == (x.id != itemId)
    ensures AfterRemove(items, itemId) == Filter(items, keep)
    decreases |items|
  {
    if items != [] {
      AfterRemoveIsFilter(items[1..], itemId, keep);
    }
  }

  /** Removing the ids one by one keeps, in order, the lines whose id is none of them. */
  lemma {:induction false} RemoveEachIsFilter(items: seq<CartItem>, ids: seq<int>, keep: CartItem -> bool)
    requires forall x :: keep(x) == (x.id !in ids)
    ensures RemoveEach(items, ids) == Filter(items, keep)
    decreases |ids|
  {
    if ids == [] {
      FilterAll(items, keep);
    } else {
      var front := ids[..|ids| - 1];
      var last := ids[|ids| - 1];
      assert ids == front + [last];
      var keepFront := (x: CartItem) => x.id !in front;
      var keepLast := (x: CartItem) => x.id != last;
      RemoveEachIsFilter(items, front, keepFront);
      AfterRemoveIsFilter(Filter(items, keepFront), last, keepLast);
      FilterFilter(items, keepFront, keepLast, keep);
    }
  }

  /** The ids of the selected lines: `filter(isInWishlist).map(item => item.id)`. */
  function SelectedIds(items: seq<CartItem>, selection: set<string>): (ids: seq<int>)
    ensures |ids| == |Selected(items, selection)|
  {
    Keys(Selected(items, selection), LineId)
  }

  /** Removing one more id is one more removal step. */
  lemma RemoveEachStep(items: seq<CartItem>, ids: seq<int>, i: int)
    requires 0 <= i < |ids|
    ensures RemoveEach(items, ids[..i + 1]) == AfterRemove(RemoveEach(items, ids[..i]), ids[i])
  {
    assert ids[..i + 1][..i] == ids[..i];
  }

  /** A cart line's id is among the selected ids exactly when the line is selected. */
  lemma SelectedIdOf(items: seq<CartItem>, selection: set<string>, x: CartItem)
    requires x in items
    ensures x.id in SelectedIds(items, selection) <==> IsSelected(x, selection)
  {
    var ids := SelectedIds(items, selection);
    var sel := Selected(items, selection);
    if IsSelected(x, selection) {
      assert x in sel;
      var j :| 0 <= j < |sel| && sel[j] == x;
      assert ids[j] == x.id;
    } else {
      forall j | 0 <= j < |ids|
        ensures ids[j] != x.id
      {
        assert IsSelected(sel[j], selection);
      }
    }
  }

  /** Removing the selected ids leaves exactly the unselected lines. */
  lemma RemoveSelectedLeavesUnselected(items: seq<CartItem>, selection: set<string>)
    ensures RemoveEach(items, SelectedIds(items, selection)) == Unselected(items, selection)
  {
    var ids := SelectedIds(items, selection);
    var keepIds := (x: CartItem) => x.id !in ids;
    var drop := (x: CartItem) => !IsSelected(x, selection);
    RemoveEachIsFilter(items, ids, keepIds);
    forall i | 0 <= i < |items|
      ensures keepIds(items[i]) == drop(items[i])
    {
      SelectedIdOf(items, selection, items[i]);
    }
    FilterCongruent(items, keepIds, drop);
    assert Unselected(items, selection) == Filter(items, drop);
  }

  /** The page's own fields, as one record, so that a handler can say which of them it changes. */
  datatype PageState = PageState(
    memberDiscount: int, couponDiscount: int, voucherCode: string, selectedDelivery: string, selectedPayment: string,
    showConfirmModal: bool, showBankPaymentModal: bool, showLoginModal: bool, orderNumber: string, shippingForm: CustomerInfo)

  /** What a checkout touches outside the page: the cart, the selection, the order list and its storage. */
  datatype Checkout = Checkout(cart: seq<CartItem>, selection: set<string>, orders: seq<Order>, entries: map<string, string>)

  /**
   * The three outcomes of `saveOrderAndRedirect` submitting `order` built from `before`: with nothing
   * selected the prompt is shown and nothing changes; a failed write shows the error text and
   * nothing changes; a saved order is appended and stored, shows `message`, leaves only the
   * unselected lines in the cart, clears the selection and goes to `/orders`.
   */
  predicate SaveOutcome(before: Checkout, after: Checkout, order: Order, browser: bool, codec: Codec<seq<Order>>,
                        writeOk: bool, message: string, alert: Option<string>, nav: Nav)
  {
    if Selected(before.cart, before.selection) == [] then
      alert == Some(NothingSelected) && nav == NoNav && after == before
    else if browser && !writeOk then
      alert == Some(SaveFailed) && nav == NoNav && after == before
    else
      alert == Some(message) && nav == Navigate(["/orders"]) &&
      after.orders == before.orders + [order] &&
      after.entries == Written(before.entries, OrdersKey, codec.encode(after.orders), browser) &&
      after.cart == Unselected(before.cart, before.selection) && after.selection == {}
  }

  class PaymentPageComponent {
    const cartService: CartService
    const wishlistService: WishlistService
    const orderService: OrderService
    const authService: AuthService

    var memberDiscount: int
    var couponDiscount: int
    var voucherCode: string
    var selectedDelivery: string
    var selectedPayment: string
    var showConfirmModal: bool
    var showBankPaymentModal: bool
    var showLoginModal: bool
    var orderNumber: string
    var shippingForm: CustomerInfo

    constructor(cartService: CartService, wishlistService: WishlistService, orderService: OrderService, authService: AuthService)
      ensures this.cartService == cartService && this.wishlistService == wishlistService
      ensures this.orderService == orderService && this.authService == authService
      ensures memberDiscount == 0 && couponDiscount == 0 && voucherCode == ""
      ensures selectedDelivery == "standard" && selectedPayment == "cod"
      ensures !showConfirmModal && !showBankPaymentModal && !showLoginModal && orderNumber == ""
      ensures shippingForm == CustomerInfo("", "", "", "", "", "", "", "")
    {
      this.cartService := cartService;
      this.wishlistService := wishlistService;
      this.orderService := orderService;
      this.authService := authService;
      memberDiscount := 0;
      couponDiscount := 0;
      voucherCode := "";
      selectedDelivery := "standard";
      selectedPayment := "cod";
      showConfirmModal := false;
      showBankPaymentModal := false;
      showLoginModal := false;
      orderNumber := "";
      shippingForm := CustomerInfo("", "", "", "", "", "", "", "");
    }

    function State(): PageState
      reads this
    {
      PageState(memberDiscount, couponDiscount, voucherCode, selectedDelivery, selectedPayment,
                showConfirmModal, showBankPaymentModal, showLoginModal, orderNumber, shippingForm)
    }

    function CheckoutState(): Checkout
      reads cartService, wishlistService, orderService, orderService.storage
    {
      Checkout(cartService.items, wishlistService.wishlistItems, orderService.orders, orderService.storage.entries)
    }

    /** The `subtotal`, `shipping` and `total` signals, as one record. */
    function Pricing(): (t: Totals)
      reads this, cartService
      ensures t.subtotal == TotalPrice(cartService.items) && t.shipping == ShippingCost(selectedDelivery)
      ensures t.memberDiscount == memberDiscount && t.couponDiscount == couponDiscount
      ensures t.total == t.subtotal + t.shipping - memberDiscount - couponDiscount
    {
      OrderTotals(cartService.items, selectedDelivery, memberDiscount, couponDiscount)
    }

    method UpdateDelivery(delivery: string)
      modifies this
      ensures State() == old(State()).(selectedDelivery := delivery)
      ensures Pricing().shipping == ShippingCost(delivery)
    {
      selectedDelivery := delivery;
    }

    method UpdatePayment(payment: string)
      modifies this
      ensures State() == old(State()).(selectedPayment := payment)
    {
      selectedPayment := payment;
    }

    method ApplyVoucher()
      modifies this
      ensures State() == old(State()).(couponDiscount := VoucherDiscount(old(voucherCode)))
    {
      var code := voucherCode;
      if Trim(code) != "" {
        couponDiscount := VoucherAmount;
      } else {
        couponDiscount := 0;
      }
    }

    /** `showOrderConfirmation`: the login prompt for a visitor, the confirmation for a logged-in user. */
    method ShowOrderConfirmation()
      modifies this, authService, authService.storage
      ensures var loggedIn := ResolveUser(old(authService.currentUser),
                                          ReadStored(authService.browser, old(authService.storage.entries), CurrentUserKey, authService.userCodec)).Some?;
              State() == if loggedIn then old(State()).(showConfirmModal := true) else old(State()).(showLoginModal := true)
      ensures authService.currentUser == ResolveUser(old(authService.currentUser),
                                                     ReadStored(authService.browser, old(authService.storage.entries), CurrentUserKey, authService.userCodec))
      ensures authService.storage.entries ==
                LookupEntries(authService.browser, old(authService.currentUser), old(authService.storage.entries), authService.userCodec)
      ensures authService.users == old(authService.users)
    {
      var loggedIn := authService.IsLoggedIn();
      if !loggedIn {
        showLoginModal := true;
        return;
      }
      showConfirmModal := true;
    }

    method GenerateOrderNumber(now: nat)
      modifies this
      ensures State() == old(State()).(orderNumber := OrderNumber(now))
    {
      orderNumber := OrderNumber(now);
    }

    function IsInWishlist(item: CartItem): (selected: bool)
      reads this, wishlistService
      ensures selected <==> IsSelected(item, wishlistService.wishlistItems)
    {
      wishlistService.IsItemInWishlist(IntToString(item.id))
    }

    method ToggleWishlist(item: CartItem)
      modifies wishlistService
      ensures wishlistService.wishlistItems == Toggled(old(wishlistService.wishlistItems), IntToString(item.id))
    {
      wishlistService.ToggleItem(IntToString(item.id));
    }

    method IncrementQuantity(item: CartItem)
      modifies cartService
      ensures cartService.items == AfterUpdateQuantity(old(cartService.items), item.id, item.quantity + 1)
    {
      var service := cartService;
      CartItemView.Increment(service, item);
    }

    method DecrementQuantity(item: CartItem)
      modifies cartService
      ensures cartService.items == CartItemView.AfterDecrement(old(cartService.items), item)
    {
      var service := cartService;
      CartItemView.Decrement(service, item);
    }

    /** `removeSelectedItemsFromCart`: the selected lines leave the cart, then the selection is cleared. */
    method RemoveSelectedItemsFromCart()
      modifies cartService, wishlistService
      ensures cartService.items == Unselected(old(cartService.items), old(wishlistService.wishlistItems))
      ensures wishlistService.wishlistItems == {}
    {
      ghost var items0 := cartService.items;
      ghost var selection0 := wishlistService.wishlistItems;
      var selectedItemIds := SelectedIds(cartService.items, wishlistService.wishlistItems);
      var service := cartService;
      var i := 0;
      while i < |selectedItemIds|
        invariant 0 <= i <= |selectedItemIds| && service == cartService
        invariant service.items == RemoveEach(items0, selectedItemIds[..i])
      {
        RemoveEachStep(items0, selectedItemIds, i);
        service.RemoveItem(selectedItemIds[i]);
        i := i + 1;
      }
      assert selectedItemIds[..i] == selectedItemIds;
      RemoveSelectedLeavesUnselected(items0, selection0);
      assert cartService.items == Unselected(items0, selection0);
      wishlistService.ClearWishlist();
    }

    /**
     * `saveOrderAndRedirect`: with nothing selected nothing is submitted. Otherwise the order is
     * handed to the order service; once it is saved the message is shown, the bought lines leave the
     * cart, the selection is cleared and the router goes to `/orders`; a failed save only shows the
     * error text.
     */
    method SaveOrderAndRedirect(status: string, message: string, now: nat, createdAt: string, writeOk: bool)
      returns (alert: Option<string>, nav: Nav)
      modifies orderService, orderService.storage, cartService, wishlistService
      ensures SaveOutcome(old(CheckoutState()), CheckoutState(),
                          PlacedOrder(now, orderNumber, shippingForm, old(cartService.items), old(wishlistService.wishlistItems),
                                      selectedDelivery, selectedPayment, memberDiscount, couponDiscount, status, createdAt),
                          orderService.browser, orderService.codec, writeOk, message, alert, nav)
    {
      var selectedItems := Selected(cartService.items, wishlistService.wishlistItems);
      if |selectedItems| == 0 {
        return Some(NothingSelected), NoNav;
      }
      var order := PlacedOrder(now, orderNumber, shippingForm, cartService.items, wishlistService.wishlistItems,
                               selectedDelivery, selectedPayment, memberDiscount, couponDiscount, status, createdAt);
      var saved := orderService.AddOrder(order, writeOk);
      if saved.Next? {
        RemoveSelectedItemsFromCart();
        return Some(message), Navigate(["/orders"]);
      }
      return Some(SaveFailed), NoNav;
    }

    /** `completeOrder`: cash on delivery saves a `pending` order; any other choice opens the bank transfer step. */
    method CompleteOrder(now: nat, createdAt: string, writeOk: bool) returns (alert: Option<string>, nav: Nav)
      modifies this, orderService, orderService.storage, cartService, wishlistService
      ensures old(selectedPayment) != "cod" ==>
                State() == old(State()).(orderNumber := OrderNumber(now), showConfirmModal := false, showBankPaymentModal := true) &&
                alert == None && nav == NoNav && CheckoutState() == old(CheckoutState())
      ensures old(selectedPayment) == "cod" ==>
                State() == old(State()).(showConfirmModal := false) &&
                SaveOutcome(old(CheckoutState()), CheckoutState(),
                            PlacedOrder(now, old(orderNumber), old(shippingForm), old(cartService.items), old(wishlistService.wishlistItems),
                                        old(selectedDelivery), "cod", old(memberDiscount), old(couponDiscount), "pending", createdAt),
                            orderService.browser, orderService.codec, writeOk, CodPlaced, alert, nav)
    {
      if selectedPayment == "cod" {
        alert, nav := SaveOrderAndRedirect("pending", CodPlaced, now, createdAt, writeOk);
        showConfirmModal := false;
      } else {
        GenerateOrderNumber(now);
        showConfirmModal := false;
        showBankPaymentModal := true;
        alert, nav := None, NoNav;
      }
    }

    /** `confirmBankPayment`: the order is saved as `processing` and the transfer dialog closes. */
    method ConfirmBankPayment(now: nat, createdAt: string, writeOk: bool) returns (alert: Option<string>, nav: Nav)
      modifies this, orderService, orderService.storage, cartService, wishlistService
      ensures State() == old(State()).(showBankPaymentModal := false)
      ensures SaveOutcome(old(CheckoutState()), CheckoutState(),
                          PlacedOrder(now, old(orderNumber), old(shippingForm), old(cartService.items), old(wishlistService.wishlistItems),
                                      old(selectedDelivery), old(selectedPayment), old(memberDiscount), old(couponDiscount),
                                      "processing", createdAt),
                          orderService.browser, orderService.codec, writeOk, BankConfirmed, alert, nav)
    {
      alert, nav := SaveOrderAndRedirect("processing", BankConfirmed, now, createdAt, writeOk);
      showBankPaymentModal := false;
    }

    method CloseModal()
      modifies this
      ensures State() == old(State()).(showConfirmModal := false)
    {
      showConfirmModal := false;
    }

    method CloseBankPaymentModal()
      modifies this
      ensures State() == old(State()).(showBankPaymentModal := false)
    {
      showBankPaymentModal := false;
    }

    method CloseLoginModal()
      modifies this
      ensures State() == old(State()).(showLoginModal := false)
    {
      showLoginModal := false;
    }

    /** `goToLogin`: the prompt closes and the router goes to `/login`. */
    method GoToLogin() returns (nav: Nav)
      modifies this
      ensures State() == old(State()).(showLoginModal := false) && nav == Navigate(["/login"])
    {
      showLoginModal := false;
      nav := Navigate(["/login"]);
    }
  }
}

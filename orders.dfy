/**
 * The order list of `order.service.ts`, shared by the shop and the admin pages and mirrored
 * under the `orders` key.
 */
module Orders {
  import opened Wrappers
  import opened Records
  import opened Persistence

  datatype OrderItem = OrderItem(id: int, name: string, code: string, price: int, quantity: int, totalPrice: int, img: string)

  datatype CustomerInfo = CustomerInfo(
    fullName: string, email: string, phone: string, address: string, city: string,
    district: string, ward: string, note: string)

  /** `method` is a reserved word in Dafny, so the `method` fields are named after their record. */
  datatype Shipping = Shipping(shippingMethod: string, cost: int)

  datatype Payment = Payment(paymentMethod: string, status: string)

  datatype Totals = Totals(subtotal: int, shipping: int, memberDiscount: int, couponDiscount: int, total: int)

  datatype Order = Order(
    id: int, orderNumber: string, customerInfo: CustomerInfo, items: seq<OrderItem>,
    shipping: Shipping, payment: Payment, totals: Totals, createdAt: string, status: string)

  const OrdersKey := "orders"

  /** The list `updateOrderStatus` publishes when the order number is found at `k`. */
  function WithStatus(orders: seq<Order>, k: nat, status: string): (r: seq<Order>)
    requires k < |orders|
    ensures |r| == |orders|
    ensures r[k].status == status && r[k] == orders[k].(status := status)
    ensures forall i :: 0 <= i < |orders| && i != k ==> r[i] == orders[i]
  {
    orders[k := orders[k].(status := status)]
  }

  /** A status change touches nothing but the status: the order's number, items and totals stay. */
  lemma StatusChangeKeepsOrder(orders: seq<Order>, k: nat, status: string)
    requires k < |orders|
    ensures var o := WithStatus(orders, k, status)[k];
            o.id == orders[k].id && o.orderNumber == orders[k].orderNumber && o.items == orders[k].items &&
            o.totals == orders[k].totals && o.customerInfo == orders[k].customerInfo
  {
  }

  class OrderService {
    const browser: bool
    const storage: LocalStorage
    const codec: Codec<seq<Order>>
    /** The value of `ordersSubject`. */
    var orders: seq<Order>

    /**
     * The constructor runs `loadOrders` in a browser and `loadOrdersFromJson` elsewhere; unlike the
     * admin stores, a failed seed also writes the empty list to storage.
     */
    constructor(browser: bool, storage: LocalStorage, codec: Codec<seq<Order>>, seed: Option<seq<Order>>, writeOk: bool)
      modifies storage
      ensures this.browser == browser && this.storage == storage && this.codec == codec
      ensures Snapshot(orders, storage.entries) == Load(browser, OrdersKey, old(storage.entries), codec, seed, writeOk, true)
    {
      var loaded := LoadInto(storage, browser, OrdersKey, codec, seed, writeOk, true);
      this.browser := browser;
      this.storage := storage;
      this.codec := codec;
      orders := loaded;
    }

    /** `loadOrders`, which the order pages call again to refresh the list. */
    method LoadOrders(seed: Option<seq<Order>>, writeOk: bool)
      modifies this, storage
      ensures Snapshot(orders, storage.entries) == Load(browser, OrdersKey, old(storage.entries), codec, seed, writeOk, true)
    {
      orders := LoadInto(storage, browser, OrdersKey, codec, seed, writeOk, true);
    }

    /**
     * `addOrder`: append the order exactly as given (no id is assigned) and persist; when the write
     * fails the list is put back and the Observable errors.
     */
    method AddOrder(order: Order, writeOk: bool) returns (r: Outcome<Order>)
      modifies this, storage
      ensures if browser && !writeOk then
                r == Error && orders == old(orders) && storage.entries == old(storage.entries)
              else
                r == Next(order) && orders == old(orders) + [order] &&
                storage.entries == Written(old(storage.entries), OrdersKey, codec.encode(orders), browser)
    {
      var currentOrders := orders;
      var updatedOrders := currentOrders + [order];
      orders := updatedOrders;
      var ok := Persist(storage, browser, OrdersKey, codec, updatedOrders, writeOk);
      if !ok {
        orders := currentOrders;
        return Error;
      }
      r := Next(order);
    }

    /**
     * `updateOrderStatus`: the first order with that order number (not id) gets the new status and
     * is returned; `None` (the `null` result) and no change when there is none.
     */
    method UpdateOrderStatus(orderNumber: string, status: string, writeOk: bool) returns (r: Option<Order>)
      modifies this, storage
      ensures match FirstIndex(old(orders), (o: Order) => o.orderNumber == orderNumber)
              case None =>
                r == None && orders == old(orders) && storage.entries == old(storage.entries)
              case Some(k) =>
                orders == WithStatus(old(orders), k, status) && r == Some(orders[k]) &&
                storage.entries == Written(old(storage.entries), OrdersKey, codec.encode(orders), browser && writeOk)
    {
      var currentOrders := orders;
      var orderIndex := FirstIndex(currentOrders, (o: Order) => o.orderNumber == orderNumber);
      if orderIndex.Some? {
        var updatedOrders := currentOrders[orderIndex.value := currentOrders[orderIndex.value].(status := status)];
        orders := updatedOrders;
        var _ := Persist(storage, browser, OrdersKey, codec, updatedOrders, writeOk);
        r := Some(updatedOrders[orderIndex.value]);
      } else {
        r := None;
      }
    }
  }
}

/**
 * `OrderDetailModal.ts`: the admin view of an order, the status picker synchronised with the
 * order it is given, and the status labels.
 */
module OrderDetailModal {
  import opened Wrappers

  /** An order line as the admin pages show it. */
  datatype AdminOrderItem = AdminOrderItem(id: string, name: string, price: int, quantity: int, image: string)

  /**
   * An order as the admin pages show it. `date` is the creation time in milliseconds, the value the
   * admin list is sorted by; `status` is one of the four admin statuses.
   */
  datatype AdminOrder = AdminOrder(
    id: string, date: int, customerName: string, customerEmail: string, customerPhone: string,
    items: seq<AdminOrderItem>, total: int, status: string, shippingAddress: string)

  /** What `statusUpdate` emits. */
  datatype StatusUpdate = StatusUpdate(orderId: string, status: string)

  const AdminStatuses: set<string> := {"pending", "processing", "shipping", "delivered"}

  /**
   * `getStatusText` (written identically in the order management page): the Vietnamese label of
   * each admin status, and any other text unchanged. The match is exact, not case-insensitive.
   */
  function StatusText(status: string): (text: string)
    ensures status == "pending" ==> text == "Đang chờ"
    ensures status == "processing" ==> text == "Đang xử lý"
    ensures status == "shipping" ==> text == "Đang giao"
    ensures status == "delivered" ==> text == "Đã giao"
    ensures status !in AdminStatuses ==> text == status
  {
    match status
    case "pending" => "Đang chờ"
    case "processing" => "Đang xử lý"
    case "shipping" => "Đang giao"
    case "delivered" => "Đã giao"
    case _ => status
  }

  /** The four labels are distinct, so the label of an admin status determines the status. */
  lemma StatusTextInjective(a: string, b: string)
    requires a in AdminStatuses && b in AdminStatuses
    requires StatusText(a) == StatusText(b)
    ensures a == b
  {
  }

  /** `updateStatus`'s emission: one update carrying the order's id, only when the picker differs. */
  function StatusUpdateFor(order: AdminOrder, selectedStatus: string): (u: Option<StatusUpdate>)
    ensures u.Some? <==> selectedStatus != order.status
    ensures u.Some? ==> u.value.orderId == order.id && u.value.status == selectedStatus
  {
    if selectedStatus != order.status then Some(StatusUpdate(order.id, selectedStatus)) else None
  }

  class OrderDetailModalComponent {
    var isVisible: bool
    var order: Option<AdminOrder>
    var selectedStatus: string

    constructor()
      ensures !isVisible && order == None && selectedStatus == ""
    {
      isVisible := false;
      order := None;
      selectedStatus := "";
    }

    /** `ngOnInit`: with an order present the picker starts at its status; otherwise it is left alone. */
    method NgOnInit()
      modifies this
      ensures order == old(order) && isVisible == old(isVisible)
      ensures selectedStatus == if order.Some? then order.value.status else old(selectedStatus)
    {
      if order.Some? {
        selectedStatus := order.value.status;
      }
    }

    /** New inputs bound by the parent, followed by `ngOnChanges`, which re-synchronises the picker. */
    method NgOnChanges(isVisible: bool, order: Option<AdminOrder>)
      modifies this
      ensures this.order == order && this.isVisible == isVisible
      ensures selectedStatus == if order.Some? then order.value.status else old(selectedStatus)
    {
      this.isVisible := isVisible;
      this.order := order;
      NgOnInit();
    }

    /**
     * `updateStatus`: the update is emitted only when the picker changed the status, and `close`
     * is emitted in every case.
     */
    method UpdateStatus() returns (statusUpdate: Option<StatusUpdate>, closeEmitted: bool)
      requires order.Some?
      ensures statusUpdate == StatusUpdateFor(order.value, selectedStatus) && closeEmitted
    {
      statusUpdate := StatusUpdateFor(order.value, selectedStatus);
      closeEmitted := true;
    }
  }

  /** Right after synchronising, saving emits no update. */
  lemma UnchangedPickerEmitsNothing(order: AdminOrder)
    ensures StatusUpdateFor(order, order.status) == None
  {
  }
}

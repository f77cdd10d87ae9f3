/**
 * The shopping cart of `cart.service.ts`: a list of items that the `items` signal replaces on
 * every change, and the totals computed from it.
 */
module Cart {
  import opened Wrappers
  import opened Records

  datatype CartItem = CartItem(id: int, name: string, code: string, price: int, img: string, quantity: int)

  /** The argument of `addItem`: a cart item without its quantity. */
  datatype NewItem = NewItem(id: int, name: string, code: string, price: int, img: string)

  /** `{ ...item, quantity }` */
  function WithQuantity(item: NewItem, quantity: int): CartItem {
    CartItem(item.id, item.name, item.code, item.price, item.img, quantity)
  }

  /** What the cart operations keep: one line per product id, and every quantity at least 1. */
  predicate Valid(items: seq<CartItem>) {
    UniqueBy(items, LineId) &&
    (forall i :: 0 <= i < |items| ==> items[i].quantity >= 1)
  }

  function LineId(item: CartItem): int {
    item.id
  }

  predicate HasId(items: seq<CartItem>, id: int) {
    exists i :: 0 <= i < |items| && items[i].id == id
  }

  /** What one line costs: price × quantity. */
  function LineTotal(item: CartItem): int {
    item.price * item.quantity
  }

  /** The `totalPrice` signal: the sum of the line totals, never negative when no line total is. */
  function TotalPrice(items: seq<CartItem>): (total: int)
    ensures (forall i :: 0 <= i < |items| ==> LineTotal(items[i]) >= 0) ==> total >= 0
  {
    if items == [] then 0 else LineTotal(items[0]) + TotalPrice(items[1..])
  }

  /**
   * The `totalItems` signal: the sum of the quantities. With every quantity at least 1, as in a
   * valid cart, there are at least as many pieces as lines.
   */
  function TotalItems(items: seq<CartItem>): (count: int)
    ensures (forall i :: 0 <= i < |items| ==> items[i].quantity >= 1) ==> count >= |items|
  {
    if items == [] then 0 else items[0].quantity + TotalItems(items[1..])
  }

  /** `items.reduce((count, item) => count + item.quantity, acc)`, read left to right. */
  function CountFrom(acc: int, items: seq<CartItem>): int
    decreases |items|
  {
    if items == [] then acc else CountFrom(acc + items[0].quantity, items[1..])
  }

  /** `getItemsCount`, which folds from 0 and so agrees with the `totalItems` signal. */
  function GetItemsCount(items: seq<CartItem>): (count: int)
    ensures count == TotalItems(items)
  {
    CountFromIsSum(0, items);
    CountFrom(0, items)
  }

  lemma {:induction false} CountFromIsSum(acc: int, items: seq<CartItem>)
    ensures CountFrom(acc, items) == acc + TotalItems(items)
    decreases |items|
  {
    if items != [] {
      CountFromIsSum(acc + items[0].quantity, items[1..]);
    }
  }

  /** The fold in `getItemsCount` always agrees with the `totalItems` signal. */
  lemma GetItemsCountIsTotalItems(items: seq<CartItem>)
    ensures GetItemsCount(items) == TotalItems(items)
  {
    CountFromIsSum(0, items);
  }

  lemma {:induction false} TotalsAppend(xs: seq<CartItem>, ys: seq<CartItem>)
    ensures TotalPrice(xs + ys) == TotalPrice(xs) + TotalPrice(ys)
    ensures TotalItems(xs + ys) == TotalItems(xs) + TotalItems(ys)
    decreases |xs|
  {
    if xs == [] {
      assert xs + ys == ys;
    } else {
      assert (xs + ys)[1..] == xs[1..] + ys;
      TotalsAppend(xs[1..], ys);
    }
  }

  /**
   * `updateQuantity`: a quantity below 1 is ignored; otherwise every line with that id takes the
   * new quantity and nothing else changes.
   */
  function AfterUpdateQuantity(items: seq<CartItem>, itemId: int, quantity: int): (r: seq<CartItem>)
    ensures quantity < 1 ==> r == items
    ensures |r| == |items|
    ensures forall i :: 0 <= i < |items| && items[i].id == itemId && quantity >= 1 ==>
              r[i] == items[i].(quantity := quantity)
    ensures forall i :: 0 <= i < |items| && (items[i].id != itemId || quantity < 1) ==> r[i] == items[i]
  {
    if quantity < 1 || items == [] then items
    else
      var rest := AfterUpdateQuantity(items[1..], itemId, quantity);
      [if items[0].id == itemId then items[0].(quantity := quantity) else items[0]] + rest
  }

  /** `removeItem`: every line with that id goes, the others stay in order. */
  function AfterRemove(items: seq<CartItem>, itemId: int): (r: seq<CartItem>)
    ensures forall i :: 0 <= i < |r| ==> r[i].id != itemId
    ensures forall x :: x in items && x.id != itemId ==> x in r
    ensures forall x :: x in r ==> x in items
    ensures IsSubsequence(r, items)
    ensures !HasId(items, itemId) ==> r == items
  {
    var keep := (x: CartItem) => x.id != itemId;
    FilterSubsequence(items, keep);
    FilterMembers(items, keep);
    assert !HasId(items, itemId) ==> Filter(items, keep) == items by {
      if !HasId(items, itemId) {
        FilterAll(items, keep);
      }
    }
    Filter(items, keep)
  }

  /** The test `find` applies to each line: does it hold this product id. */
  function HoldsId(id: int): CartItem -> bool {
    (x: CartItem) => x.id == id
  }

  /**
   * `addItem`: an id already in the cart raises that line's quantity by one (keeping what was stored
   * by the earlier add); a new id is appended with quantity 1.
   */
  function AfterAdd(items: seq<CartItem>, item: NewItem): (r: seq<CartItem>)
    ensures !HasId(items, item.id) ==> r == items + [WithQuantity(item, 1)]
    ensures HasId(items, item.id) ==> |r| == |items|
    ensures forall k :: 0 <= k < |items| && items[k].id == item.id && Valid(items) ==>
              r == items[k := items[k].(quantity := items[k].quantity + 1)]
  {
    match FirstIndex(items, HoldsId(item.id))
    case None => items + [WithQuantity(item, 1)]
    case Some(k) => AfterUpdateQuantity(items, item.id, items[k].quantity + 1)
  }

  /** `addItem` keeps the cart valid. */
  lemma AddKeepsValid(items: seq<CartItem>, item: NewItem)
    requires Valid(items)
    ensures Valid(AfterAdd(items, item))
  {
    if HasId(items, item.id) {
      var k :| 0 <= k < |items| && items[k].id == item.id;
      assert AfterAdd(items, item) == items[k := items[k].(quantity := items[k].quantity + 1)];
    }
  }

  lemma UpdateQuantityKeepsValid(items: seq<CartItem>, itemId: int, quantity: int)
    requires Valid(items)
    ensures Valid(AfterUpdateQuantity(items, itemId, quantity))
  {
  }

  lemma RemoveKeepsValid(items: seq<CartItem>, itemId: int)
    requires Valid(items)
    ensures Valid(AfterRemove(items, itemId))
  {
    var r := AfterRemove(items, itemId);
    forall i | 0 <= i < |r| ensures r[i].quantity >= 1 {
      assert r[i] in items;
    }
    SubsequenceKeepsUnique(r, items, LineId);
  }

  /** Changing one line's quantity changes the totals by the difference. */
  lemma {:induction false} TotalsAfterSet(items: seq<CartItem>, k: nat, q: int)
    requires k < |items|
    ensures var r := items[k := items[k].(quantity := q)];
            TotalItems(r) == TotalItems(items) - items[k].quantity + q &&
            TotalPrice(r) == TotalPrice(items) - LineTotal(items[k]) + LineTotal(r[k])
    decreases k
  {
    var r := items[k := items[k].(quantity := q)];
    if k > 0 {
      TotalsAfterSet(items[1..], k - 1, q);
      assert r[1..] == items[1..][k - 1 := items[1..][k - 1].(quantity := q)];
    }
  }

  /** Adding a new product appends one piece at the given price. */
  lemma {:induction false} AddNewTotals(items: seq<CartItem>, item: NewItem)
    requires !HasId(items, item.id)
    ensures TotalItems(AfterAdd(items, item)) == TotalItems(items) + 1
    ensures TotalPrice(AfterAdd(items, item)) == TotalPrice(items) + item.price
  {
    TotalsAppend(items, [WithQuantity(item, 1)]);
  }

  /** Adding a product already in a valid cart adds one piece at the price stored by the earlier add. */
  lemma {:induction false} AddExistingTotals(items: seq<CartItem>, item: NewItem, k: nat)
    requires Valid(items)
    requires k < |items| && items[k].id == item.id
    ensures TotalItems(AfterAdd(items, item)) == TotalItems(items) + 1
    ensures TotalPrice(AfterAdd(items, item)) == TotalPrice(items) + items[k].price
  {
    AddExistingIsUpdateAt(items, item, k);
    OneMoreAt(items, k);
  }

  /** One more piece on line `k` adds one to the count and that line's unit price to the total. */
  lemma {:induction false} OneMoreAt(items: seq<CartItem>, k: nat)
    requires k < |items|
    ensures var r := items[k := items[k].(quantity := items[k].quantity + 1)];
            TotalItems(r) == TotalItems(items) + 1 && TotalPrice(r) == TotalPrice(items) + items[k].price
  {
    TotalsAfterSet(items, k, items[k].quantity + 1);
    OneMorePiece(items[k]);
  }

  /** With unique ids, adding an existing product touches exactly the line that holds it. */
  lemma {:induction false} AddExistingIsUpdateAt(items: seq<CartItem>, item: NewItem, k: nat)
    requires Valid(items)
    requires k < |items| && items[k].id == item.id
    ensures AfterAdd(items, item) == items[k := items[k].(quantity := items[k].quantity + 1)]
  {
    var found := FirstIndex(items, HoldsId(item.id));
    assert found == Some(k);
  }

  lemma OneMorePiece(x: CartItem)
    ensures LineTotal(x.(quantity := x.quantity + 1)) == LineTotal(x) + x.price
  {
    assert x.price * (x.quantity + 1) == x.price * x.quantity + x.price;
  }

  /** The cart service: the `items` signal holds the current list. */
  class CartService {
    var items: seq<CartItem>

    constructor()
      ensures items == []
    {
      items := [];
    }

    method AddItem(item: NewItem)
      modifies this
      ensures items == AfterAdd(old(items), item)
    {
      var existing := Find(items, HoldsId(item.id));
      ghost var index := FirstIndex(items, HoldsId(item.id));
      if existing.Some? {
        assert index.Some? && existing.value == items[index.value];
        UpdateQuantity(item.id, existing.value.quantity + 1);
      } else {
        items := items + [WithQuantity(item, 1)];
      }
    }

    method UpdateQuantity(itemId: int, quantity: int)
      modifies this
      ensures items == AfterUpdateQuantity(old(items), itemId, quantity)
    {
      if quantity < 1 {
        return;
      }
      items := AfterUpdateQuantity(items, itemId, quantity);
    }

    method RemoveItem(itemId: int)
      modifies this
      ensures items == AfterRemove(old(items), itemId)
    {
      items := Filter(items, (x: CartItem) => x.id != itemId);
    }
  }
}

/**
 * The checkout selection of `wishlist.service.ts`: a set of product-id strings held in a signal,
 * and the totals over the cart lines whose `id.toString()` is in it.
 */
module Wishlist {
  import opened Text
  import opened Records
  import opened Cart

  /** Whether a cart line is selected: `wishlistItems().has(item.id.toString())`. */
  predicate IsSelected(item: CartItem, selection: set<string>) {
    IntToString(item.id) in selection
  }

  /** The cart lines that are selected, in cart order. */
  function Selected(items: seq<CartItem>, selection: set<string>): (r: seq<CartItem>)
    ensures forall i :: 0 <= i < |r| ==> IsSelected(r[i], selection)
    ensures forall x :: x in r <==> x in items && IsSelected(x, selection)
    ensures IsSubsequence(r, items)
  {
    var keep := (x: CartItem) => IsSelected(x, selection);
    FilterMembers(items, keep);
    FilterSubsequence(items, keep);
    Filter(items, keep)
  }

  /** The `totalPrice` signal: the cost of the selected lines. */
  function SelectedPrice(items: seq<CartItem>, selection: set<string>): int {
    TotalPrice(Selected(items, selection))
  }

  /** The `wishlistCount` signal: the pieces on the selected lines. */
  function SelectedCount(items: seq<CartItem>, selection: set<string>): int {
    TotalItems(Selected(items, selection))
  }

  /** With no selection, nothing is counted or charged. */
  lemma EmptySelectionTotals(items: seq<CartItem>)
    ensures Selected(items, {}) == []
    ensures SelectedPrice(items, {}) == 0 && SelectedCount(items, {}) == 0
  {
  }

  /** The selected pieces never outnumber the cart's pieces (quantities are never negative). */
  lemma {:induction false} SelectedCountBounded(items: seq<CartItem>, selection: set<string>)
    requires forall i :: 0 <= i < |items| ==> items[i].quantity >= 0
    ensures 0 <= SelectedCount(items, selection) <= TotalItems(items)
    decreases |items|
  {
    if items != [] {
      SelectedCountBounded(items[1..], selection);
      var keep := (x: CartItem) => IsSelected(x, selection);
      assert Selected(items, selection) == Filter(items, keep);
      assert Selected(items[1..], selection) == Filter(items[1..], keep);
    }
  }

  /** When every line is selected, the checkout totals are the cart totals. */
  lemma {:induction false} FullSelectionTotals(items: seq<CartItem>, selection: set<string>)
    requires forall i :: 0 <= i < |items| ==> IsSelected(items[i], selection)
    ensures Selected(items, selection) == items
    ensures SelectedPrice(items, selection) == TotalPrice(items)
    ensures SelectedCount(items, selection) == TotalItems(items)
  {
    FilterAll(items, (x: CartItem) => IsSelected(x, selection));
  }

  /** The wishlist service; it reads the cart it is injected with. */
  class WishlistService {
    var wishlistItems: set<string>
    const cartService: CartService

    constructor(cartService: CartService)
      ensures wishlistItems == {} && this.cartService == cartService
    {
      wishlistItems := {};
      this.cartService := cartService;
    }

    /** `totalPrice`: nothing selected costs nothing, and selecting every line costs the whole cart. */
    function TotalPrice(): (price: int)
      reads this, cartService
      ensures wishlistItems == {} ==> price == 0
      ensures (forall i :: 0 <= i < |cartService.items| ==> IsSelected(cartService.items[i], wishlistItems)) ==>
                price == Cart.TotalPrice(cartService.items)
    {
      if wishlistItems == {} then
        EmptySelectionTotals(cartService.items);
        SelectedPrice(cartService.items, wishlistItems)
      else if forall i :: 0 <= i < |cartService.items| ==> IsSelected(cartService.items[i], wishlistItems) then
        FullSelectionTotals(cartService.items, wishlistItems);
        SelectedPrice(cartService.items, wishlistItems)
      else
        SelectedPrice(cartService.items, wishlistItems)
    }

    /**
     * `wishlistCount`: between none and all of the cart's pieces; none with nothing selected and all
     * with every line selected.
     */
    function WishlistCount(): (count: int)
      reads this, cartService
      ensures (forall i :: 0 <= i < |cartService.items| ==> cartService.items[i].quantity >= 0) ==>
                0 <= count <= TotalItems(cartService.items)
      ensures wishlistItems == {} ==> count == 0
      ensures (forall i :: 0 <= i < |cartService.items| ==> IsSelected(cartService.items[i], wishlistItems)) ==>
                count == TotalItems(cartService.items)
    {
      var items := cartService.items;
      var _ := if forall i :: 0 <= i < |items| ==> items[i].quantity >= 0 then SelectedCountBounded(items, wishlistItems); 0 else 0;
      if wishlistItems == {} then
        EmptySelectionTotals(items);
        SelectedCount(items, wishlistItems)
      else if forall i :: 0 <= i < |items| ==> IsSelected(items[i], wishlistItems) then
        FullSelectionTotals(items, wishlistItems);
        SelectedCount(items, wishlistItems)
      else
        SelectedCount(items, wishlistItems)
    }

    /** `isItemInWishlist`: whether the code is selected, so a toggle flips the answer. */
    function IsItemInWishlist(productCode: string): (selected: bool)
      reads this
      ensures selected <==> productCode in wishlistItems
      ensures selected <==> productCode !in Toggled(wishlistItems, productCode)
    {
      productCode in wishlistItems
    }

    method ToggleItem(productCode: string)
      modifies this
      ensures wishlistItems == Toggled(old(wishlistItems), productCode)
    {
      var currentItems := wishlistItems;
      if productCode in currentItems {
        currentItems := currentItems - {productCode};
      } else {
        currentItems := currentItems + {productCode};
      }
      wishlistItems := currentItems;
    }

    method ClearWishlist()
      modifies this
      ensures wishlistItems == {}
      ensures TotalPrice() == 0 && WishlistCount() == 0
    {
      wishlistItems := {};
      EmptySelectionTotals(cartService.items);
    }

    /** `new Set(productCodes)`: the selection becomes exactly these codes, not a union with the old one. */
    method AddAllItems(productCodes: seq<string>)
      modifies this
      ensures forall c :: c in wishlistItems <==> c in productCodes
    {
      wishlistItems := set c | c in productCodes;
    }
  }
}

/** `Cart.ts`: the cart page's select-all checkbox and the way to checkout. */
module CartView {
  import opened Wrappers
  import opened Text
  import opened Cart
  import opened Wishlist

  /**
   * `isAllSelected`: false for an empty cart, else every line's id text is selected. The checkbox is
   * ticked exactly when checkout would take the whole cart, and then its totals are the cart's.
   */
  function IsAllSelected(items: seq<CartItem>, selection: set<string>): (all: bool)
    ensures all <==> items != [] && Selected(items, selection) == items
    ensures all ==> SelectedPrice(items, selection) == TotalPrice(items) && SelectedCount(items, selection) == TotalItems(items)
  {
    if |items| > 0 && forall i :: 0 <= i < |items| ==> IsSelected(items[i], selection) then
      FullSelectionTotals(items, selection);
      true
    else
      false
  }

  /** `products.map(p => p.id.toString())` */
  function IdTexts(items: seq<CartItem>): (codes: seq<string>)
    ensures |codes| == |items| && forall i :: 0 <= i < |items| ==> codes[i] == IntToString(items[i].id)
  {
    seq(|items|, i requires 0 <= i < |items| => IntToString(items[i].id))
  }

  /**
   * The selection after `toggleSelectAll`: cleared when everything was selected; otherwise exactly
   * the cart's ids, dropping any selected id that is not in the cart.
   */
  function AfterToggleSelectAll(items: seq<CartItem>, selection: set<string>): (r: set<string>)
    ensures IsAllSelected(items, selection) ==> r == {}
    ensures !IsAllSelected(items, selection) ==> forall c :: c in r <==> c in IdTexts(items)
  {
    if IsAllSelected(items, selection) then {} else set c | c in IdTexts(items)
  }

  /** On a non-empty cart the select-all checkbox flips. */
  lemma ToggleSelectAllFlips(items: seq<CartItem>, selection: set<string>)
    requires items != []
    ensures IsAllSelected(items, AfterToggleSelectAll(items, selection)) == !IsAllSelected(items, selection)
  {
    var r := AfterToggleSelectAll(items, selection);
    if !IsAllSelected(items, selection) {
      forall i | 0 <= i < |items|
        ensures IsSelected(items[i], r)
      {
        assert IdTexts(items)[i] == IntToString(items[i].id);
      }
    } else {
      assert !IsSelected(items[0], r);
    }
  }

  class CartComponent {
    const cartService: CartService
    const wishlistService: WishlistService

    constructor(cartService: CartService, wishlistService: WishlistService)
      ensures this.cartService == cartService && this.wishlistService == wishlistService
    {
      this.cartService := cartService;
      this.wishlistService := wishlistService;
    }

    function AllSelected(): bool
      reads this, cartService, wishlistService
    {
      IsAllSelected(cartService.items, wishlistService.wishlistItems)
    }

    method ToggleSelectAll()
      modifies wishlistService
      ensures wishlistService.wishlistItems == AfterToggleSelectAll(cartService.items, old(wishlistService.wishlistItems))
    {
      var products := cartService.items;
      if IsAllSelected(products, wishlistService.wishlistItems) {
        wishlistService.ClearWishlist();
      } else {
        wishlistService.AddAllItems(IdTexts(products));
      }
    }

    /** `navigateToPayment`: checkout opens only when some selected piece is in the cart. */
    method NavigateToPayment() returns (nav: Nav)
      ensures nav == if wishlistService.WishlistCount() > 0 then Navigate(["/payment"]) else NoNav
    {
      var count := wishlistService.WishlistCount();
      if count > 0 {
        nav := Navigate(["/payment"]);
      } else {
        nav := NoNav;
      }
    }
  }

  /** With nothing selected, checkout does not open. */
  lemma NoSelectionNoCheckout(items: seq<CartItem>)
    ensures SelectedCount(items, {}) == 0
  {
    EmptySelectionTotals(items);
  }
}

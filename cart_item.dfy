/**
 * `CartItem.ts` (and the identical quantity buttons of the payment page): one cart line's
 * checkbox and plus/minus buttons, which act on the cart and wishlist services.
 */
module CartItemView {
  import opened Text
  import opened Records
  import opened Cart
  import opened Wishlist

  /** The cart after the minus button: one piece less, or the line removed when it had one piece. */
  function AfterDecrement(items: seq<CartItem>, product: CartItem): (r: seq<CartItem>)
    ensures product.quantity > 1 ==> r == AfterUpdateQuantity(items, product.id, product.quantity - 1)
    ensures product.quantity <= 1 ==> r == AfterRemove(items, product.id)
  {
    if product.quantity > 1 then AfterUpdateQuantity(items, product.id, product.quantity - 1)
    else AfterRemove(items, product.id)
  }

  /**
   * The minus button never leaves a line at quantity 0: on a valid cart, a line with more than one
   * piece loses one, and a line with one piece disappears.
   */
  lemma DecrementEffect(items: seq<CartItem>, k: nat)
    requires Valid(items) && k < |items|
    ensures Valid(AfterDecrement(items, items[k]))
    ensures items[k].quantity > 1 ==> AfterDecrement(items, items[k])[k] == items[k].(quantity := items[k].quantity - 1)
    ensures items[k].quantity <= 1 ==> !HasId(AfterDecrement(items, items[k]), items[k].id)
  {
    if items[k].quantity > 1 {
      UpdateQuantityKeepsValid(items, items[k].id, items[k].quantity - 1);
    } else {
      RemoveKeepsValid(items, items[k].id);
    }
  }

  /** The plus button on a line of a valid cart adds exactly one piece to that line. */
  lemma IncrementEffect(items: seq<CartItem>, k: nat)
    requires Valid(items) && k < |items|
    ensures AfterUpdateQuantity(items, items[k].id, items[k].quantity + 1) == items[k := items[k].(quantity := items[k].quantity + 1)]
    ensures TotalItems(AfterUpdateQuantity(items, items[k].id, items[k].quantity + 1)) == TotalItems(items) + 1
  {
    var r := AfterUpdateQuantity(items, items[k].id, items[k].quantity + 1);
    assert r == items[k := items[k].(quantity := items[k].quantity + 1)] by {
      forall i | 0 <= i < |items| && i != k
        ensures items[i].id != items[k].id
      {
        assert LineId(items[i]) != LineId(items[k]);
      }
    }
    OneMoreAt(items, k);
  }

  /** `incrementQuantity` */
  method Increment(cartService: CartService, product: CartItem)
    modifies cartService
    ensures cartService.items == AfterUpdateQuantity(old(cartService.items), product.id, product.quantity + 1)
  {
    cartService.UpdateQuantity(product.id, product.quantity + 1);
  }

  /** `decrementQuantity` */
  method Decrement(cartService: CartService, product: CartItem)
    modifies cartService
    ensures cartService.items == AfterDecrement(old(cartService.items), product)
  {
    if product.quantity > 1 {
      cartService.UpdateQuantity(product.id, product.quantity - 1);
    } else {
      cartService.RemoveItem(product.id);
    }
  }

  class CartItemComponent {
    /** The `product` input: the cart line this row shows. */
    var product: CartItem
    const cartService: CartService
    const wishlistService: WishlistService

    constructor(product: CartItem, cartService: CartService, wishlistService: WishlistService)
      ensures this.product == product && this.cartService == cartService && this.wishlistService == wishlistService
    {
      this.product := product;
      this.cartService := cartService;
      this.wishlistService := wishlistService;
    }

    /** `isInWishlist`: the line is selected for checkout. */
    function IsInWishlist(): (selected: bool)
      reads this, wishlistService
      ensures selected <==> IsSelected(product, wishlistService.wishlistItems)
    {
      wishlistService.IsItemInWishlist(IntToString(product.id))
    }

    /** `toggleWishlist`: the line's selection flips, and no other id's. */
    method ToggleWishlist()
      modifies wishlistService
      ensures wishlistService.wishlistItems == Toggled(old(wishlistService.wishlistItems), IntToString(product.id))
      ensures IsInWishlist() <==> !old(IsInWishlist())
    {
      wishlistService.ToggleItem(IntToString(product.id));
    }

    method IncrementQuantity()
      modifies cartService
      ensures cartService.items == AfterUpdateQuantity(old(cartService.items), product.id, product.quantity + 1)
    {
      var p := product;
      Increment(cartService, p);
    }

    method DecrementQuantity()
      modifies cartService
      ensures cartService.items == AfterDecrement(old(cartService.items), product)
    {
      var p := product;
      Decrement(cartService, p);
    }
  }
}

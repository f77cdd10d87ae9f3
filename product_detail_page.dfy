/**
 * `ProductDetailPage.ts`: the product page reached at `/product/:id`. It looks the product up in
 * the catalogue file, preselects its default colour, and puts it in the cart.
 */
module ProductDetailPage {
  import opened Wrappers
  import opened Text
  import opened Records
  import opened Cart
  import opened Wishlist

  /** The page's own `ProductColor`. */
  datatype DetailColor = DetailColor(name: string, code: string, image: string, stock: int)

  /** The page's own `Product`, with the fields the page's logic reads. */
  datatype DetailProduct = DetailProduct(
    id: int, code: string, name: string, price: int, colors: seq<DetailColor>, defaultColor: string, img: string)

  /**
   * `Number(id)` on the route parameter, for the forms a route can carry: blank text is 0, decimal
   * digits (around which whitespace is ignored) their value, anything else not a number (`None`).
   */
  function RouteNumber(s: string): (n: Option<int>)
    ensures Blank(s) ==> n == Some(0)
  {
    var t := Trim(s);
    if t == "" then Some(0)
    else if forall i :: 0 <= i < |t| ==> IsDigit(t[i]) then Some(DigitsValue(t))
    else None
  }

  /** A product id printed in the route reads back as that id. */
  lemma RouteNumberOfId(n: nat)
    ensures RouteNumber(NatToString(n)) == Some(n)
  {
    var s := NatToString(n);
    assert !IsSpace(s[0]) && !IsSpace(s[|s| - 1]);
    assert TrimStart(s) == s;
    assert TrimEnd(s) == s;
    NatToStringRoundTrip(n);
  }

  /** `products.find(p => p.id === Number(this.id)) || null` */
  function ProductFor(products: seq<DetailProduct>, routeId: string): (p: Option<DetailProduct>)
    ensures RouteNumber(routeId).None? ==> p.None?
    ensures RouteNumber(routeId).Some? ==>
              (p.Some? <==> exists i :: 0 <= i < |products| && products[i].id == RouteNumber(routeId).value)
    ensures p.Some? ==> exists k :: 0 <= k < |products| && products[k] == p.value && p.value.id == RouteNumber(routeId).value &&
                                    forall j :: 0 <= j < k ==> products[j].id != p.value.id
  {
    match RouteNumber(routeId)
    case None => None
    case Some(n) =>
      match FirstIndex(products, (p: DetailProduct) => p.id == n)
      case None => None
      case Some(k) => Some(products[k])
  }

  /**
   * The colour `loadProduct` preselects: the first colour whose code is the default one, else the
   * first colour. A product without colours has none, and the page then keeps its old image.
   */
  function DefaultColor(p: DetailProduct): (c: Option<DetailColor>)
    ensures c.None? <==> p.colors == []
    ensures c.Some? ==> c.value in p.colors
    ensures (exists i :: 0 <= i < |p.colors| && p.colors[i].code == p.defaultColor) ==>
              c.Some? && c.value.code == p.defaultColor
    ensures (forall i :: 0 <= i < |p.colors| ==> p.colors[i].code != p.defaultColor) && p.colors != [] ==>
              c == Some(p.colors[0])
  {
    match Find(p.colors, (x: DetailColor) => x.code == p.defaultColor)
    case Some(x) => Some(x)
    case None => if p.colors == [] then None else Some(p.colors[0])
  }

  /** The cart line `addToCart` adds: the product, pictured in the chosen colour's image. */
  function CartEntry(p: DetailProduct, image: string): (item: NewItem)
    ensures item.id == p.id && item.name == p.name && item.code == p.code && item.price == p.price && item.img == image
  {
    NewItem(p.id, p.name, p.code, p.price, image)
  }

  /** The text of the `alert` in `addToCart`: it names the product, then the colour. */
  function AddedMessage(p: DetailProduct, c: DetailColor): (msg: string)
    ensures |msg| == |p.name| + |c.name| + 18
    ensures msg[..6] == "Added " && msg[6..6 + |p.name|] == p.name
    ensures msg[6 + |p.name|..10 + |p.name|] == " in " && msg[10 + |p.name|..10 + |p.name| + |c.name|] == c.name
    ensures msg[|msg| - 8..] == " to cart"
  {
    "Added " + p.name + " in " + c.name + " to cart"
  }

  /**
   * Adding a product that is neither in the cart nor selected puts one more piece in the checkout
   * and raises the checkout price by the product's price.
   */
  lemma {:induction false} FirstAddIsBought(items: seq<CartItem>, selection: set<string>, item: NewItem)
    requires !HasId(items, item.id) && IntToString(item.id) !in selection
    ensures var after := Toggled(selection, IntToString(item.id));
            SelectedCount(AfterAdd(items, item), after) == SelectedCount(items, selection) + 1 &&
            SelectedPrice(AfterAdd(items, item), after) == SelectedPrice(items, selection) + item.price
  {
    var code := IntToString(item.id);
    var after := Toggled(selection, code);
    var line := WithQuantity(item, 1);
    var keepOld := (x: CartItem) => IsSelected(x, selection);
    var keepNew := (x: CartItem) => IsSelected(x, after);
    forall i | 0 <= i < |items|
      ensures keepOld(items[i]) == keepNew(items[i])
    {
      if IntToString(items[i].id) == code {
        IntToStringInjective(items[i].id, item.id);
      }
    }
    FilterCongruent(items, keepOld, keepNew);
    FilterAppend(items, [line], keepNew);
    assert Filter([line], keepNew) == [line];
    assert AfterAdd(items, item) == items + [line];
    assert Selected(items + [line], after) == Selected(items, selection) + [line] by {
      assert Selected(items + [line], after) == Filter(items + [line], keepNew);
      assert Selected(items, selection) == Filter(items, keepOld);
    }
    TotalsAppend(Selected(items, selection), [line]);
  }

  class ProductDetailPageComponent {
    const cartService: CartService
    const wishlistService: WishlistService
    var id: string
    var products: seq<DetailProduct>
    var product: Option<DetailProduct>
    var selectedColor: Option<DetailColor>
    var currentImage: string

    constructor(cartService: CartService, wishlistService: WishlistService)
      ensures this.cartService == cartService && this.wishlistService == wishlistService
      ensures id == "" && products == [] && product == None && selectedColor == None && currentImage == ""
    {
      this.cartService := cartService;
      this.wishlistService := wishlistService;
      id := "";
      products := [];
      product := None;
      selectedColor := None;
      currentImage := "";
    }

    /**
     * A route change under `ngOnInit`: the id is taken from the route, and when the catalogue
     * arrives (`data`) the product and its default colour and image are chosen. `thrown` reports the
     * `TypeError` the callback raises for a product without colours.
     */
    method OnRouteParams(routeId: string, data: Option<seq<DetailProduct>>) returns (thrown: bool)
      modifies this
      ensures id == routeId
      ensures thrown <==> data.Some? && product.Some? && product.value.colors == []
      ensures data.None? ==> products == old(products) && product == old(product) &&
                             selectedColor == old(selectedColor) && currentImage == old(currentImage)
      ensures data.Some? ==> products == data.value && product == ProductFor(data.value, routeId)
      ensures data.Some? && product.None? ==> selectedColor == old(selectedColor) && currentImage == old(currentImage)
      ensures data.Some? && product.Some? ==>
                selectedColor == DefaultColor(product.value) &&
                currentImage == if selectedColor.Some? then selectedColor.value.image else old(currentImage)
    {
      id := routeId;
      thrown := false;
      if data.Some? {
        thrown := LoadProduct(data.value);
      }
    }

    /**
     * The `loadProduct` callback. A found product without colours leaves `selectedColor` undefined,
     * and reading its image then throws (`thrown`); the image stays as it was.
     */
    method LoadProduct(data: seq<DetailProduct>) returns (thrown: bool)
      modifies this
      ensures id == old(id) && products == data && product == ProductFor(data, id)
      ensures thrown <==> product.Some? && selectedColor.None?
      ensures thrown <==> product.Some? && product.value.colors == []
      ensures product.None? ==> selectedColor == old(selectedColor) && currentImage == old(currentImage)
      ensures product.Some? ==>
                selectedColor == DefaultColor(product.value) &&
                currentImage == if selectedColor.Some? then selectedColor.value.image else old(currentImage)
    {
      var found := ProductFor(data, id);
      var color, image := selectedColor, currentImage;
      if found.Some? {
        color := DefaultColor(found.value);
        if color.Some? {
          image := color.value.image;
        }
      }
      products, product, selectedColor, currentImage := data, found, color, image;
      thrown := found.Some? && color.None?;
    }

    method SelectColor(color: DetailColor)
      modifies this
      ensures selectedColor == Some(color) && currentImage == color.image
      ensures id == old(id) && products == old(products) && product == old(product)
    {
      selectedColor := Some(color);
      currentImage := color.image;
    }

    /**
     * `addToCart`: with a product and a colour, the product is added under the current image and
     * its selection is toggled, so a product already selected becomes unselected.
     */
    method AddToCart() returns (alert: Option<string>)
      modifies cartService, wishlistService
      ensures product.None? || selectedColor.None? ==>
                alert == None && cartService.items == old(cartService.items) &&
                wishlistService.wishlistItems == old(wishlistService.wishlistItems)
      ensures product.Some? && selectedColor.Some? ==>
                alert == Some(AddedMessage(product.value, selectedColor.value)) &&
                cartService.items == AfterAdd(old(cartService.items), CartEntry(product.value, currentImage)) &&
                wishlistService.wishlistItems == Toggled(old(wishlistService.wishlistItems), IntToString(product.value.id))
    {
      if product.Some? && selectedColor.Some? {
        var p := product.value;
        alert := Some(AddedMessage(p, selectedColor.value));
        cartService.AddItem(CartEntry(p, currentImage));
        wishlistService.ToggleItem(IntToString(p.id));
      } else {
        alert := None;
      }
    }

    /** `buyNow`: the same cart and selection change without the alert, then the checkout page. */
    method BuyNow() returns (nav: Nav)
      modifies cartService, wishlistService
      ensures product.None? || selectedColor.None? ==>
                nav == NoNav && cartService.items == old(cartService.items) &&
                wishlistService.wishlistItems == old(wishlistService.wishlistItems)
      ensures product.Some? && selectedColor.Some? ==>
                nav == Navigate(["/payment"]) &&
                cartService.items == AfterAdd(old(cartService.items), CartEntry(product.value, currentImage)) &&
                wishlistService.wishlistItems == Toggled(old(wishlistService.wishlistItems), IntToString(product.value.id))
    {
      if product.Some? && selectedColor.Some? {
        var p := product.value;
        cartService.AddItem(CartEntry(p, currentImage));
        wishlistService.ToggleItem(IntToString(p.id));
        nav := Navigate(["/payment"]);
      } else {
        nav := NoNav;
      }
    }
  }
}

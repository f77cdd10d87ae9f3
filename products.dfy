/**
 * The admin product catalogue of `product.service.ts`: the published list, mirrored under the
 * `products` key on every change.
 */
module Products {
  import opened Wrappers
  import opened Records
  import opened Persistence

  datatype ProductColor = ProductColor(name: string, code: string, image: string, stock: int)

  datatype ProductSpecifications = ProductSpecifications(
    lensWidth: int, bridgeWidth: int, templeLength: int, frameWidth: int, frameHeight: int, weight: string)

  datatype ProductMaterials = ProductMaterials(frame: string, lens: string, temple: string)

  datatype Product = Product(
    id: int, code: string, name: string, fullName: string, price: int, originalPrice: int,
    stock: int, category: string, collection: string, status: string, description: string,
    materials: ProductMaterials, specifications: ProductSpecifications, features: seq<string>,
    colors: seq<ProductColor>, selected: Option<bool>)

  const ProductsKey := "products"

  function ProductId(p: Product): int {
    p.id
  }

  /** `generateNextId(products)` */
  function NextProductId(products: seq<Product>): (id: int)
    ensures id >= 1
    ensures forall i :: 0 <= i < |products| ==> products[i].id < id
  {
    NextIdFresh(Keys(products, ProductId));
    NextId(Keys(products, ProductId))
  }

  /** The record `addProduct` appends: the argument with the generated id. */
  function WithNextId(products: seq<Product>, product: Product): (p: Product)
    ensures p.id == NextProductId(products)
    ensures p == product.(id := p.id)
  {
    product.(id := NextProductId(products))
  }

  /** The list `deleteProduct` publishes: every record with that id is gone. */
  function WithoutProduct(products: seq<Product>, productId: int): (r: seq<Product>)
    ensures forall i :: 0 <= i < |r| ==> r[i].id != productId
    ensures forall p :: p in products && p.id != productId ==> p in r
    ensures IsSubsequence(r, products)
  {
    var keep := (p: Product) => p.id != productId;
    FilterMembers(products, keep);
    FilterSubsequence(products, keep);
    Filter(products, keep)
  }

  /** Unique ids stay unique through an add, an update of a found record, and a delete. */
  lemma {:induction false} MutatorsKeepIdsUnique(products: seq<Product>, product: Product, updated: Product, productId: int)
    requires UniqueBy(products, ProductId)
    ensures UniqueBy(products + [WithNextId(products, product)], ProductId)
    ensures match FirstIndex(products, (p: Product) => p.id == updated.id)
            case None => true
            case Some(k) => UniqueBy(products[k := updated], ProductId)
    ensures UniqueBy(WithoutProduct(products, productId), ProductId)
  {
    AppendNextIdKeepsUnique(products, ProductId, WithNextId(products, product));
    FilterKeepsUnique(products, (p: Product) => p.id != productId, ProductId);
    match FirstIndex(products, (p: Product) => p.id == updated.id)
    case None =>
    case Some(k) => ReplaceKeepsUnique(products, ProductId, k, updated);
  }

  class ProductService {
    const browser: bool
    const storage: LocalStorage
    const codec: Codec<seq<Product>>
    /** The value of `productsSubject`. */
    var products: seq<Product>

    /** The constructor runs the load path: `loadProducts` in a browser, `loadProductsFromJson` elsewhere. */
    constructor(browser: bool, storage: LocalStorage, codec: Codec<seq<Product>>, seed: Option<seq<Product>>, writeOk: bool)
      modifies storage
      ensures this.browser == browser && this.storage == storage && this.codec == codec
      ensures Snapshot(products, storage.entries) == Load(browser, ProductsKey, old(storage.entries), codec, seed, writeOk, false)
    {
      var loaded := LoadInto(storage, browser, ProductsKey, codec, seed, writeOk, false);
      this.browser := browser;
      this.storage := storage;
      this.codec := codec;
      products := loaded;
    }

    /**
     * `addProduct`: append the argument under the next id and persist; when the write fails the
     * list is put back and the Observable errors.
     */
    method AddProduct(product: Product, writeOk: bool) returns (r: Outcome<Product>)
      modifies this, storage
      ensures var added := WithNextId(old(products), product);
              if browser && !writeOk then
                r == Error && products == old(products) && storage.entries == old(storage.entries)
              else
                r == Next(added) && products == old(products) + [added] &&
                storage.entries == Written(old(storage.entries), ProductsKey, codec.encode(products), browser)
    {
      var currentProducts := products;
      var newProduct := WithNextId(currentProducts, product);
      var updatedProducts := currentProducts + [newProduct];
      products := updatedProducts;
      var ok := Persist(storage, browser, ProductsKey, codec, updatedProducts, writeOk);
      if !ok {
        products := currentProducts;
        return Error;
      }
      r := Next(newProduct);
    }

    /**
     * `updateProduct`: replace the first record with the same id and persist (a failed write is
     * not rolled back); `None` (the `null` result) when no record has that id.
     */
    method UpdateProduct(updatedProduct: Product, writeOk: bool) returns (r: Option<Product>)
      modifies this, storage
      ensures match FirstIndex(old(products), (p: Product) => p.id == updatedProduct.id)
              case None =>
                r == None && products == old(products) && storage.entries == old(storage.entries)
              case Some(k) =>
                r == Some(updatedProduct) && products == old(products)[k := updatedProduct] &&
                storage.entries == Written(old(storage.entries), ProductsKey, codec.encode(products), browser && writeOk)
    {
      var currentProducts := products;
      var productIndex := FirstIndex(currentProducts, (p: Product) => p.id == updatedProduct.id);
      if productIndex.Some? {
        var updatedProducts := currentProducts[productIndex.value := updatedProduct];
        products := updatedProducts;
        var _ := Persist(storage, browser, ProductsKey, codec, updatedProducts, writeOk);
        r := Some(updatedProducts[productIndex.value]);
      } else {
        r := None;
      }
    }

    /** `deleteProduct`: `true` and every record with that id removed, or `false` and no change. */
    method DeleteProduct(productId: int, writeOk: bool) returns (deleted: bool)
      modifies this, storage
      ensures deleted <==> exists i :: 0 <= i < |old(products)| && old(products)[i].id == productId
      ensures deleted ==> products == WithoutProduct(old(products), productId) &&
                          storage.entries == Written(old(storage.entries), ProductsKey, codec.encode(products), browser && writeOk)
      ensures !deleted ==> products == old(products) && storage.entries == old(storage.entries)
    {
      var currentProducts := products;
      var productIndex := FirstIndex(currentProducts, (p: Product) => p.id == productId);
      if productIndex.Some? {
        var updatedProducts := WithoutProduct(currentProducts, productId);
        products := updatedProducts;
        var _ := Persist(storage, browser, ProductsKey, codec, updatedProducts, writeOk);
        deleted := true;
      } else {
        deleted := false;
      }
    }
  }
}

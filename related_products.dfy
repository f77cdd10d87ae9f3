/**
 * `RelatedProducts.ts`: the "related glasses" strip. It picks products from the catalogue file,
 * caps their number (shuffling when it has to cut), and cuts the result into carousel slides.
 */
module RelatedProducts {
  import opened Wrappers
  import opened Records

  /** The component's own `Product`, with the `category` and `collection` fields the filter reads. */
  datatype RelatedProduct = RelatedProduct(
    id: int, code: string, name: string, price: int, img: string, relatedProducts: Option<seq<int>>,
    category: string, collection: string)

  /** JavaScript truthiness of an optional id (`undefined` and `0` are false). */
  predicate IdSet(id: Option<int>) {
    id.Some? && id.value != 0
  }

  /** JavaScript truthiness of an optional text (`undefined` and `''` are false). */
  predicate TextSet(s: Option<string>) {
    s.Some? && s.value != ""
  }

  /** The filter of the third branch: category and collection when given, and not the current product. */
  predicate InFilter(p: RelatedProduct, currentProductId: Option<int>, category: Option<string>, collection: Option<string>) {
    !(TextSet(category) && p.category != category.value) &&
    !(TextSet(collection) && p.collection != collection.value) &&
    !(IdSet(currentProductId) && p.id == currentProductId.value)
  }

  /** The list `getRelatedProducts` has before the count limit. */
  function Candidates(all: seq<RelatedProduct>, productIds: seq<int>, currentProductId: Option<int>,
                      category: Option<string>, collection: Option<string>): (r: seq<RelatedProduct>)
    ensures |productIds| > 0 ==>
              r == Filter(all, (p: RelatedProduct) => p.id in productIds && currentProductId != Some(p.id))
    ensures |productIds| == 0 && IdSet(currentProductId) ==>
              match Find(all, (p: RelatedProduct) => Some(p.id) == currentProductId)
              case Some(c) =>
                r == if c.relatedProducts.Some? then Filter(all, (p: RelatedProduct) => p.id in c.relatedProducts.value) else []
              case None => r == []
    ensures |productIds| == 0 && !IdSet(currentProductId) ==>
              var f := Filter(all, (p: RelatedProduct) => InFilter(p, currentProductId, category, collection));
              r == if f != [] then f else Filter(all, (p: RelatedProduct) => currentProductId != Some(p.id))
  {
    if |productIds| > 0 then
      Filter(all, (p: RelatedProduct) => p.id in productIds && currentProductId != Some(p.id))
    else if IdSet(currentProductId) then
      match Find(all, (p: RelatedProduct) => Some(p.id) == currentProductId)
      case Some(c) =>
        if c.relatedProducts.Some? then Filter(all, (p: RelatedProduct) => p.id in c.relatedProducts.value) else []
      case None => []
    else
      var f := Filter(all, (p: RelatedProduct) => InFilter(p, currentProductId, category, collection));
      if f != [] then f else Filter(all, (p: RelatedProduct) => currentProductId != Some(p.id))
  }

  /** With ids listed, the current product is never its own related product. */
  lemma CurrentExcluded(all: seq<RelatedProduct>, productIds: seq<int>, currentProductId: Option<int>,
                        category: Option<string>, collection: Option<string>)
    requires |productIds| > 0
    ensures forall i :: 0 <= i < |Candidates(all, productIds, currentProductId, category, collection)| ==>
              Some(Candidates(all, productIds, currentProductId, category, collection)[i].id) != currentProductId &&
              Candidates(all, productIds, currentProductId, category, collection)[i].id in productIds
  {
  }

  /** Every candidate comes from the catalogue, in catalogue order. */
  lemma CandidatesFromCatalogue(all: seq<RelatedProduct>, productIds: seq<int>, currentProductId: Option<int>,
                                category: Option<string>, collection: Option<string>)
    ensures IsSubsequence(Candidates(all, productIds, currentProductId, category, collection), all)
  {
    if |productIds| > 0 {
      FilterSubsequence(all, (p: RelatedProduct) => p.id in productIds && currentProductId != Some(p.id));
    } else if IdSet(currentProductId) {
      match Find(all, (p: RelatedProduct) => Some(p.id) == currentProductId)
      case Some(c) =>
        if c.relatedProducts.Some? {
          FilterSubsequence(all, (p: RelatedProduct) => p.id in c.relatedProducts.value);
        }
      case None =>
    } else {
      FilterSubsequence(all, (p: RelatedProduct) => InFilter(p, currentProductId, category, collection));
      FilterSubsequence(all, (p: RelatedProduct) => currentProductId != Some(p.id));
    }
  }

  /** The length of `xs.slice(0, m)` for a list of length `n`: a negative end counts from the back. */
  function TakeLength(n: nat, m: int): (k: nat)
    ensures k <= n
    ensures m >= 0 ==> k == if m < n then m else n
    ensures m < 0 ==> k == if n + m > 0 then n + m else 0
  {
    if m >= 0 then (if m < n then m else n) else if n + m > 0 then n + m else 0
  }

  /** A prefix of a reordering of `xs` keeps the prefix length and holds only products of `xs`. */
  lemma ShuffledPrefix<T>(xs: seq<T>, shuffled: seq<T>, k: nat)
    requires multiset(shuffled) == multiset(xs) && k <= |shuffled|
    ensures |shuffled| == |xs| && |shuffled[..k]| == k && multiset(shuffled[..k]) <= multiset(xs)
  {
    assert |multiset(shuffled)| == |shuffled| && |multiset(xs)| == |xs|;
    assert shuffled == shuffled[..k] + shuffled[k..];
    assert multiset(shuffled) == multiset(shuffled[..k]) + multiset(shuffled[k..]);
  }

  /** The list of slides: `slice(i, i + size)` from every multiple `i` of `size` below the length. */
  function Chunks<T>(xs: seq<T>, size: nat): (slides: seq<seq<T>>)
    requires size > 0
    decreases |xs|
  {
    if xs == [] then []
    else if |xs| <= size then [xs]
    else [xs[..size]] + Chunks(xs[size..], size)
  }

  function Flatten<T>(slides: seq<seq<T>>): seq<T> {
    if slides == [] then [] else slides[0] + Flatten(slides[1..])
  }

  /** The slides concatenate to the list. */
  lemma {:induction false} ChunksFlatten<T>(xs: seq<T>, size: nat)
    requires size > 0
    ensures Flatten(Chunks(xs, size)) == xs
    decreases |xs|
  {
    if xs != [] && |xs| > size {
      var rest := Chunks(xs[size..], size);
      ChunksFlatten(xs[size..], size);
      var slides := [xs[..size]] + rest;
      assert Chunks(xs, size) == slides;
      assert slides[0] == xs[..size] && slides[1..] == rest;
      assert Flatten(slides) == xs[..size] + Flatten(rest);
      assert xs == xs[..size] + xs[size..];
    } else if xs != [] {
      assert Chunks(xs, size) == [xs];
      assert [xs][1..] == [];
      assert Flatten([xs]) == xs + [];
    }
  }

  /** Each slide holds between 1 and `size` products, and all but the last exactly `size`. */
  lemma {:induction false} ChunksSizes<T>(xs: seq<T>, size: nat)
    requires size > 0
    ensures forall i :: 0 <= i < |Chunks(xs, size)| ==> 1 <= |Chunks(xs, size)[i]| <= size
    ensures forall i :: 0 <= i < |Chunks(xs, size)| - 1 ==> |Chunks(xs, size)[i]| == size
    decreases |xs|
  {
    if xs != [] && |xs| > size {
      var c := Chunks(xs, size);
      ChunksSizes(xs[size..], size);
      assert c[1..] == Chunks(xs[size..], size);
      forall i | 1 <= i < |c|
        ensures c[i] == Chunks(xs[size..], size)[i - 1]
      {
      }
    }
  }

  /** There are ⌈n / size⌉ slides: enough to hold the list, and one fewer would not be. */
  lemma {:induction false} ChunksCount<T>(xs: seq<T>, size: nat)
    requires size > 0
    ensures xs == [] <==> Chunks(xs, size) == []
    ensures (|Chunks(xs, size)| - 1) * size < |xs| <= |Chunks(xs, size)| * size
    decreases |xs|
  {
    if xs != [] && |xs| > size {
      var n := |Chunks(xs[size..], size)|;
      ChunksCount(xs[size..], size);
      assert |Chunks(xs, size)| == n + 1;
      assert (n + 1) * size == n * size + size;
      assert n * size == (n - 1) * size + size;
    }
  }

  /** `xs.slice(i)`, empty once `i` is past the end. */
  function Drop<T>(xs: seq<T>, i: nat): seq<T> {
    if i <= |xs| then xs[i..] else []
  }

  /** One turn of the `createSlides` loop takes the next slide off the rest of the list. */
  lemma ChunksStep<T>(xs: seq<T>, i: nat, size: nat)
    requires size > 0 && i < |xs|
    ensures Chunks(Drop(xs, i), size) ==
            [xs[i..if i + size < |xs| then i + size else |xs|]] + Chunks(Drop(xs, i + size), size)
  {
    var rest := xs[i..];
    if i + size < |xs| {
      assert rest[..size] == xs[i..i + size];
      assert rest[size..] == xs[i + size..];
    } else {
      assert rest == xs[i..|xs|];
      assert Drop(xs, i + size) == [];
    }
  }

  /** `nextSlide`: one step on, unless already on the last slide. */
  function NextSlideIndex(current: int, totalSlides: int): (n: int)
    ensures current < totalSlides - 1 ==> n == current + 1
    ensures current >= totalSlides - 1 ==> n == current
  {
    if current < totalSlides - 1 then current + 1 else current
  }

  /** `previousSlide`: one step back, unless already on the first slide. */
  function PreviousSlideIndex(current: int): (n: int)
    ensures current > 0 ==> n == current - 1
    ensures current <= 0 ==> n == current
  {
    if current > 0 then current - 1 else current
  }

  /** From a valid slide index, both arrows keep the index valid. */
  lemma ArrowsStayInRange(current: int, totalSlides: int)
    requires 0 <= current <= (if totalSlides - 1 > 0 then totalSlides - 1 else 0)
    ensures var last := if totalSlides - 1 > 0 then totalSlides - 1 else 0;
            0 <= NextSlideIndex(current, totalSlides) <= last && 0 <= PreviousSlideIndex(current) <= last
  {
  }

  /** The component's inputs, which decide what it selects. */
  datatype Inputs = Inputs(
    productIds: seq<int>, currentProductId: Option<int>, maxItems: int, category: Option<string>,
    collection: Option<string>, itemsPerSlide: int)

  /** Everything the component holds. */
  datatype View = View(
    inputs: Inputs, relatedProducts: seq<RelatedProduct>, allProducts: seq<RelatedProduct>,
    slides: seq<seq<RelatedProduct>>, currentSlide: int, totalSlides: int, dots: seq<int>)

  class RelatedProductsComponent {
    var productIds: seq<int>
    var currentProductId: Option<int>
    var maxItems: int
    var category: Option<string>
    var collection: Option<string>
    var itemsPerSlide: int
    var relatedProducts: seq<RelatedProduct>
    var allProducts: seq<RelatedProduct>
    var slides: seq<seq<RelatedProduct>>
    var currentSlide: int
    var totalSlides: int
    var dots: seq<int>

    /** The inputs as bound by the parent template (`maxItems` 4 and `itemsPerSlide` 4 by default). */
    constructor(productIds: seq<int>, currentProductId: Option<int>, maxItems: int, category: Option<string>,
                collection: Option<string>, itemsPerSlide: int)
      ensures this.productIds == productIds && this.currentProductId == currentProductId && this.maxItems == maxItems
      ensures this.category == category && this.collection == collection && this.itemsPerSlide == itemsPerSlide
      ensures relatedProducts == [] && allProducts == [] && slides == [] && currentSlide == 0 && totalSlides == 0 && dots == []
    {
      this.productIds := productIds;
      this.currentProductId := currentProductId;
      this.maxItems := maxItems;
      this.category := category;
      this.collection := collection;
      this.itemsPerSlide := itemsPerSlide;
      relatedProducts := [];
      allProducts := [];
      slides := [];
      currentSlide := 0;
      totalSlides := 0;
      dots := [];
    }

    function Selection(): Inputs
      reads this
    {
      Inputs(productIds, currentProductId, maxItems, category, collection, itemsPerSlide)
    }

    function State(): View
      reads this
    {
      View(Selection(), relatedProducts, allProducts, slides, currentSlide, totalSlides, dots)
    }

    /** The carousel can be built: a positive slide size, or nothing to show (otherwise the loop never ends). */
    predicate Sliceable(xs: seq<RelatedProduct>)
      reads this
    {
      itemsPerSlide > 0 || xs == []
    }

    /** `loadProducts` once the catalogue file (`data`) arrives. */
    method LoadProducts(data: seq<RelatedProduct>)
      requires itemsPerSlide > 0
      modifies this
      ensures allProducts == data && Selection() == old(Selection()) && Shown(data)
    {
      allProducts := data;
      GetRelatedProducts();
    }

    /** The state `getRelatedProducts` leaves, for the catalogue `all`. */
    ghost predicate Shown(all: seq<RelatedProduct>)
      reads this
    {
      var c := Candidates(all, productIds, currentProductId, category, collection);
      (|c| <= maxItems ==> relatedProducts == c) &&
      (|c| > maxItems ==> |relatedProducts| == TakeLength(|c|, maxItems) && multiset(relatedProducts) <= multiset(c)) &&
      (itemsPerSlide > 0 ==> slides == Chunks(relatedProducts, itemsPerSlide)) &&
      totalSlides == |slides| && currentSlide == 0 &&
      |dots| == totalSlides && (forall i :: 0 <= i < |dots| ==> dots[i] == i)
    }

    /** `ngOnChanges`: the list is rebuilt only once the catalogue is loaded. */
    method NgOnChanges()
      requires itemsPerSlide > 0
      modifies this
      ensures allProducts == old(allProducts) && Selection() == old(Selection())
      ensures |allProducts| > 0 ==> Shown(allProducts)
      ensures |allProducts| == 0 ==> State() == old(State())
    {
      if |allProducts| > 0 {
        GetRelatedProducts();
      }
    }

    /**
     * `getRelatedProducts`: the candidates, cut to `maxItems` after a shuffle when there are more;
     * the shuffle is any reordering, so only the length and the kept products are determined.
     */
    method GetRelatedProducts()
      requires itemsPerSlide > 0
      modifies this
      ensures allProducts == old(allProducts) && Selection() == old(Selection())
      ensures Shown(allProducts)
    {
      var products := Candidates(allProducts, productIds, currentProductId, category, collection);
      ghost var c := products;
      if |products| > maxItems {
        var shuffled :| multiset(shuffled) == multiset(products);
        var k := TakeLength(|shuffled|, maxItems);
        ShuffledPrefix(c, shuffled, k);
        products := shuffled[..k];
        assert |products| == TakeLength(|c|, maxItems) && multiset(products) <= multiset(c);
      }
      relatedProducts := products;
      CreateSlides();
      assert c == Candidates(allProducts, productIds, currentProductId, category, collection);
    }

    /** `updateRelatedProducts` */
    method UpdateRelatedProducts(ids: seq<int>)
      requires itemsPerSlide > 0
      modifies this
      ensures Selection() == old(Selection()).(productIds := ids)
      ensures allProducts == old(allProducts) && Shown(allProducts)
    {
      productIds := ids;
      GetRelatedProducts();
    }

    /** `getProductsByCategory` */
    method GetProductsByCategory(category: string, excludeId: Option<int>)
      requires itemsPerSlide > 0
      modifies this
      ensures Selection() == old(Selection()).(category := Some(category), currentProductId := excludeId)
      ensures allProducts == old(allProducts) && Shown(allProducts)
    {
      this.category := Some(category);
      currentProductId := excludeId;
      GetRelatedProducts();
    }

    /** `getRandomProducts`: `count` products other than `excludeId`, in any order. */
    method GetRandomProducts(count: int, excludeId: Option<int>)
      requires itemsPerSlide > 0
      modifies this
      ensures var others := Filter(allProducts, (p: RelatedProduct) => excludeId != Some(p.id));
              |relatedProducts| == TakeLength(|others|, count) && multiset(relatedProducts) <= multiset(others)
      ensures Selection() == old(Selection()) && allProducts == old(allProducts)
      ensures slides == Chunks(relatedProducts, itemsPerSlide) && currentSlide == 0
      ensures totalSlides == |slides| && |dots| == totalSlides && (forall i :: 0 <= i < |dots| ==> dots[i] == i)
    {
      var filteredProducts := Filter(allProducts, (p: RelatedProduct) => excludeId != Some(p.id));
      var shuffled :| multiset(shuffled) == multiset(filteredProducts);
      var k := TakeLength(|shuffled|, count);
      ShuffledPrefix(filteredProducts, shuffled, k);
      relatedProducts := shuffled[..k];
      CreateSlides();
    }

    /** `createSlides`: the `for` loop that slices the list into slides of `itemsPerSlide`. */
    method CreateSlides()
      requires Sliceable(relatedProducts)
      modifies this
      ensures relatedProducts == old(relatedProducts) && allProducts == old(allProducts) && Selection() == old(Selection())
      ensures itemsPerSlide > 0 ==> slides == Chunks(relatedProducts, itemsPerSlide)
      ensures slides == [] <==> relatedProducts == []
      ensures totalSlides == |slides| && |dots| == totalSlides && (forall i :: 0 <= i < |dots| ==> dots[i] == i)
      ensures currentSlide == 0
    {
      var xs := relatedProducts;
      var acc: seq<seq<RelatedProduct>> := [];
      if xs != [] {
        var size := itemsPerSlide;
        var i := 0;
        while i < |xs|
          invariant 0 <= i && unchanged(this)
          invariant acc + Chunks(Drop(xs, i), size) == Chunks(xs, size)
          decreases |xs| - i
        {
          ChunksStep(xs, i, size);
          acc := acc + [xs[i..if i + size < |xs| then i + size else |xs|]];
          i := i + size;
        }
        assert Drop(xs, i) == [];
        ChunksCount(xs, size);
      }
      slides := acc;
      totalSlides := |acc|;
      dots := seq(|acc|, i requires 0 <= i < |acc| => i);
      currentSlide := 0;
    }

    method NextSlide()
      modifies this
      ensures State() == old(State()).(currentSlide := NextSlideIndex(old(currentSlide), old(totalSlides)))
    {
      if currentSlide < totalSlides - 1 {
        currentSlide := currentSlide + 1;
      }
    }

    method PreviousSlide()
      modifies this
      ensures State() == old(State()).(currentSlide := PreviousSlideIndex(old(currentSlide)))
    {
      if currentSlide > 0 {
        currentSlide := currentSlide - 1;
      }
    }

    /** `goToSlide`: the dot's index, taken as given. */
    method GoToSlide(index: int)
      modifies this
      ensures State() == old(State()).(currentSlide := index)
    {
      currentSlide := index;
    }
  }
}

/**
 * `CollectionPage.ts`: the collections page. It groups the catalogue by collection, in the order
 * the collections first appear, and shows up to six products of each.
 */
module CollectionPage {
  import opened Wrappers
  import opened Text
  import opened Records

  /** A catalogue entry as the page reads it: only `collection` matters to the grouping. */
  datatype ShowcaseProduct = ShowcaseProduct(id: int, code: string, name: string, price: int, img: string, collection: string)

  datatype CollectionInfo = CollectionInfo(name: string, displayName: string, description: string, image: string, slug: string)

  datatype CollectionGroup = CollectionGroup(
    collection: CollectionInfo, products: seq<ShowcaseProduct>,
    featuredProducts: seq<ShowcaseProduct>, additionalProducts: seq<ShowcaseProduct>)

  const DefaultImage := "assets/images/collection_page/summer.png"

  const BestSeller := CollectionInfo("Best Seller", "Best Seller Collection",
    "Our most popular frames that customers love worldwide", DefaultImage, "best-seller")

  const SpecialEdition := CollectionInfo("Special Edition", "Special Edition Collection",
    "Limited edition frames with unique designs and premium materials", DefaultImage, "special-edition")

  /** The hero section before the catalogue arrives. */
  const InitialCollection := CollectionInfo("Best Seller", "Best Seller Collection",
    "Our most popular frames that customers love", DefaultImage, "best-seller")

  /** The position of the first occurrence of `x` in `xs`. */
  function FirstPos<T(==)>(xs: seq<T>, x: T): (k: nat)
    requires x in xs
    ensures k < |xs| && xs[k] == x && x !in xs[..k]
  {
    if xs[0] == x then 0 else FirstPos(xs[1..], x) + 1
  }

  /** `[...new Set(xs)]`: each value once, in the order of its first appearance. */
  function UniqueInOrder<T(==,!new)>(xs: seq<T>): (r: seq<T>)
    ensures forall x :: x in r <==> x in xs
    ensures forall i, j :: 0 <= i < j < |r| ==> r[i] != r[j]
    decreases |xs|
  {
    if xs == [] then []
    else
      var front := UniqueInOrder(xs[..|xs| - 1]);
      assert forall x :: x in xs <==> x in xs[..|xs| - 1] || x == xs[|xs| - 1] by {
        assert xs == xs[..|xs| - 1] + [xs[|xs| - 1]];
      }
      if xs[|xs| - 1] in front then front else front + [xs[|xs| - 1]]
  }

  /** A value's first occurrence does not move when the list grows at the back. */
  lemma FirstPosPrefix<T>(xs: seq<T>, x: T)
    requires xs != [] && x in xs[..|xs| - 1]
    ensures FirstPos(xs, x) == FirstPos(xs[..|xs| - 1], x)
  {
    var k := FirstPos(xs[..|xs| - 1], x);
    assert xs[..k] == xs[..|xs| - 1][..k];
    FirstPosUnique(xs, x, k);
  }

  lemma FirstPosUnique<T>(xs: seq<T>, x: T, k: nat)
    requires k < |xs| && xs[k] == x && x !in xs[..k]
    ensures FirstPos(xs, x) == k
  {
  }

  /** The values come in the order of their first appearance. */
  lemma {:induction false} UniqueInOrderIsFirstAppearance<T(!new)>(xs: seq<T>)
    ensures forall i, j :: 0 <= i < j < |UniqueInOrder(xs)| ==>
              FirstPos(xs, UniqueInOrder(xs)[i]) < FirstPos(xs, UniqueInOrder(xs)[j])
    decreases |xs|
  {
    if xs != [] {
      var front := xs[..|xs| - 1];
      var last := xs[|xs| - 1];
      var u := UniqueInOrder(front);
      var r := UniqueInOrder(xs);
      UniqueInOrderIsFirstAppearance(front);
      forall x | x in u
        ensures FirstPos(xs, x) == FirstPos(front, x) < |front|
      {
        FirstPosPrefix(xs, x);
      }
      if last !in u {
        assert last !in front;
        assert xs[..|xs| - 1] == front;
        FirstPosUnique(xs, last, |xs| - 1);
        assert r == u + [last];
        forall i, j | 0 <= i < j < |r|
          ensures FirstPos(xs, r[i]) < FirstPos(xs, r[j])
        {
          assert r[i] == u[i];
          if j < |u| {
            assert r[j] == u[j];
          }
        }
      }
    }
  }

  /** `replace(/\s+/g, '-')`: every run of whitespace becomes one hyphen. */
  function Hyphenate(s: string): (r: string)
    ensures forall c :: c in r ==> !IsSpace(c) && (c in s || c == '-')
    ensures (forall i :: 0 <= i < |s| ==> !IsSpace(s[i])) ==> r == s
    ensures |r| <= |s|
    decreases |s|
  {
    if s == [] then []
    else if IsSpace(s[0]) then
      var rest := TrimStart(s);
      assert |rest| < |s|;
      "-" + Hyphenate(rest)
    else [s[0]] + Hyphenate(s[1..])
  }

  /** The slug of a collection without metadata. */
  function Slug(name: string): (slug: string)
    ensures forall c :: c in slug ==> !IsSpace(c) && !IsUpper(c)
  {
    Hyphenate(Lower(name))
  }

  /** `collectionsMetadata[name] || { ...defaults }` */
  function CollectionFor(name: string): (info: CollectionInfo)
    ensures info.name == name
    ensures name == "Best Seller" ==> info == BestSeller
    ensures name == "Special Edition" ==> info == SpecialEdition
    ensures name != "Best Seller" && name != "Special Edition" ==>
              info == CollectionInfo(name, name, "Products from " + name + " collection", DefaultImage, Slug(name))
  {
    if name == "Best Seller" then BestSeller
    else if name == "Special Edition" then SpecialEdition
    else CollectionInfo(name, name, "Products from " + name + " collection", DefaultImage, Slug(name))
  }

  /** Two words separated by a run of whitespace come out joined by one hyphen. */
  lemma {:induction false} HyphenateWords(a: string, gap: string, b: string)
    requires forall i :: 0 <= i < |a| ==> !IsSpace(a[i])
    requires gap != [] && Blank(gap)
    requires b != [] && forall i :: 0 <= i < |b| ==> !IsSpace(b[i])
    ensures Hyphenate(a + gap + b) == a + "-" + b
    decreases |a|
  {
    if a == [] {
      assert a + gap + b == gap + b;
      HyphenateGap(gap, b);
      assert a + "-" == "-";
    } else {
      var t := a[1..] + gap + b;
      HyphenateWords(a[1..], gap, b);
      HyphenateWordChar(a[0], t);
      SplitFirst(a, gap, b);
    }
  }

  /** Moving the first character of `a` out of two concatenations. */
  lemma SplitFirst(a: string, gap: string, b: string)
    requires a != []
    ensures a + gap + b == [a[0]] + (a[1..] + gap + b)
    ensures a + "-" + b == [a[0]] + (a[1..] + "-" + b)
  {
    assert a == [a[0]] + a[1..];
  }

  /** A character that is not whitespace is copied. */
  lemma HyphenateWordChar(c: char, t: string)
    requires !IsSpace(c)
    ensures Hyphenate([c] + t) == [c] + Hyphenate(t)
  {
    assert ([c] + t)[1..] == t;
  }

  /** A run of whitespace before a word becomes one hyphen. */
  lemma HyphenateGap(gap: string, b: string)
    requires gap != [] && Blank(gap)
    requires b != [] && forall i :: 0 <= i < |b| ==> !IsSpace(b[i])
    ensures Hyphenate(gap + b) == "-" + b
  {
    assert (gap + b)[0] == gap[0];
    BlankPrefixTrimmed(gap, b);
  }

  lemma {:induction false} BlankPrefixTrimmed(gap: string, b: string)
    requires Blank(gap) && (b == [] || !IsSpace(b[0]))
    ensures TrimStart(gap + b) == b
    decreases |gap|
  {
    if gap != [] {
      assert (gap + b)[1..] == gap[1..] + b;
      BlankPrefixTrimmed(gap[1..], b);
    } else {
      assert gap + b == b;
    }
  }

  /** `xs.slice(from, to)` for `0 <= from <= to`: clamped at the end of the list. */
  function Slice<T>(xs: seq<T>, from: nat, to: nat): (r: seq<T>)
    requires from <= to
    ensures |r| == (if to <= |xs| then to else |xs|) - (if from <= |xs| then from else |xs|)
  {
    var a := if from <= |xs| then from else |xs|;
    var b := if to <= |xs| then to else |xs|;
    xs[a..b]
  }

  function Collections(all: seq<ShowcaseProduct>): (names: seq<string>)
    ensures |names| == |all| && forall i :: 0 <= i < |all| ==> names[i] == all[i].collection
  {
    seq(|all|, i requires 0 <= i < |all| => all[i].collection)
  }

  /** The `filter(p => p.collection === name)` test. */
  function InCollection(name: string): ShowcaseProduct -> bool {
    (p: ShowcaseProduct) => p.collection == name
  }

  /** One group: the first six products of the collection, shown as four featured and two more. */
  function GroupFor(all: seq<ShowcaseProduct>, name: string): (g: CollectionGroup)
    ensures g.collection == CollectionFor(name)
    ensures g.products == Slice(Filter(all, InCollection(name)), 0, 6)
    ensures g.featuredProducts == Slice(g.products, 0, 4) && g.additionalProducts == Slice(g.products, 4, 6)
  {
    var products := Filter(all, InCollection(name));
    assert Slice(products, 0, 4) == Slice(Slice(products, 0, 6), 0, 4);
    assert Slice(products, 4, 6) == Slice(Slice(products, 0, 6), 4, 6);
    CollectionGroup(CollectionFor(name), Slice(products, 0, 6), Slice(products, 0, 4), Slice(products, 4, 6))
  }

  /** `organizeCollections`: one group per distinct collection, in first-appearance order. */
  function Organize(all: seq<ShowcaseProduct>): (groups: seq<CollectionGroup>)
    ensures |groups| == |UniqueInOrder(Collections(all))|
    ensures forall i :: 0 <= i < |groups| ==> groups[i] == GroupFor(all, UniqueInOrder(Collections(all))[i])
  {
    var names := UniqueInOrder(Collections(all));
    seq(|names|, i requires 0 <= i < |names| => GroupFor(all, names[i]))
  }

  /** No two groups are for the same collection. */
  lemma OrganizeDistinct(all: seq<ShowcaseProduct>)
    ensures forall i, j :: 0 <= i < j < |Organize(all)| ==> Organize(all)[i].collection.name != Organize(all)[j].collection.name
  {
    var names := UniqueInOrder(Collections(all));
    forall i, j | 0 <= i < j < |Organize(all)|
      ensures Organize(all)[i].collection.name != Organize(all)[j].collection.name
    {
      assert Organize(all)[i].collection.name == names[i];
      assert Organize(all)[j].collection.name == names[j];
    }
  }

  /** Every product's collection has a group. */
  lemma OrganizeCovers(all: seq<ShowcaseProduct>, p: ShowcaseProduct)
    requires p in all
    ensures exists i :: 0 <= i < |Organize(all)| && Organize(all)[i].collection.name == p.collection
  {
    var names := UniqueInOrder(Collections(all));
    var k :| 0 <= k < |all| && all[k] == p;
    assert Collections(all)[k] == p.collection;
    assert p.collection in Collections(all);
    var i :| 0 <= i < |names| && names[i] == p.collection;
    assert Organize(all)[i].collection.name == names[i];
  }

  /**
   * A group holds at most six products, all of its own collection and in catalogue order, and its
   * featured products followed by its additional ones are the group.
   */
  lemma GroupShape(all: seq<ShowcaseProduct>, name: string)
    ensures var g := GroupFor(all, name);
            |g.products| <= 6 && g.collection.name == name && IsSubsequence(g.products, all) &&
            (forall k :: 0 <= k < |g.products| ==> g.products[k].collection == name) &&
            g.featuredProducts + g.additionalProducts == g.products
  {
    var keep := InCollection(name);
    var products := Filter(all, keep);
    var g := GroupFor(all, name);
    assert g.products == products[..|g.products|];
    FilterSubsequence(all, keep);
    PrefixSubsequence(products, |g.products|, all);
    assert g.featuredProducts + g.additionalProducts == g.products;
  }

  /**
   * A group has featured products exactly when its collection has a product, and additional ones
   * exactly when the collection has more than four.
   */
  lemma GroupNonEmpty(all: seq<ShowcaseProduct>, name: string)
    ensures var g := GroupFor(all, name);
            var n := |Filter(all, InCollection(name))|;
            (n > 0 <==> name in Collections(all)) &&
            (g.featuredProducts != [] <==> n > 0) && (g.additionalProducts != [] <==> n > 4)
  {
    var keep := InCollection(name);
    var products := Filter(all, keep);
    FilterMembers(all, keep);
    if products != [] {
      assert products[0] in all;
      var k :| 0 <= k < |all| && all[k] == products[0];
      assert Collections(all)[k] == name;
    }
    if name in Collections(all) {
      var k :| 0 <= k < |all| && Collections(all)[k] == name;
      assert all[k] in products;
    }
  }

  /** The organised list is empty only for an empty catalogue. */
  lemma OrganizeEmpty(all: seq<ShowcaseProduct>)
    ensures Organize(all) == [] <==> all == []
  {
    if all != [] {
      assert Collections(all)[0] in UniqueInOrder(Collections(all));
    }
  }

  /**
   * Looking a name up among the organised groups: a group is found exactly when some product has
   * that collection, and the group found is that collection's group.
   */
  lemma LookupInOrganized(all: seq<ShowcaseProduct>, name: string, g: Option<CollectionGroup>)
    requires g.Some? ==> g.value in Organize(all) && g.value.collection.name == name
    requires g.None? <==> forall i :: 0 <= i < |Organize(all)| ==> Organize(all)[i].collection.name != name
    ensures g.Some? <==> name in Collections(all)
    ensures g.Some? ==> g.value == GroupFor(all, name)
  {
    var names := UniqueInOrder(Collections(all));
    if g.Some? {
      var i :| 0 <= i < |Organize(all)| && Organize(all)[i] == g.value;
      assert names[i] in names;
    }
    if name in Collections(all) {
      var i :| 0 <= i < |names| && names[i] == name;
      assert Organize(all)[i].collection.name == name;
    }
  }

  /** A prefix of a subsequence is a subsequence. */
  lemma {:induction false} PrefixSubsequence<T>(r: seq<T>, n: nat, xs: seq<T>)
    requires n <= |r| && IsSubsequence(r, xs)
    ensures IsSubsequence(r[..n], xs)
    decreases |xs|
  {
    if n > 0 {
      if r[0] == xs[0] && IsSubsequence(r[1..], xs[1..]) {
        PrefixSubsequence(r[1..], n - 1, xs[1..]);
        assert r[..n][1..] == r[1..][..n - 1];
      } else {
        PrefixSubsequence(r, n, xs[1..]);
      }
    }
  }

  class CollectionPageComponent {
    var allProducts: seq<ShowcaseProduct>
    var collectionsWithProducts: seq<CollectionGroup>
    var currentCollection: CollectionInfo

    constructor()
      ensures allProducts == [] && collectionsWithProducts == [] && currentCollection == InitialCollection
    {
      allProducts := [];
      collectionsWithProducts := [];
      currentCollection := InitialCollection;
    }

    /** `ngOnInit` once the catalogue file (`data`) arrives. */
    method OnCatalogue(data: seq<ShowcaseProduct>)
      modifies this
      ensures allProducts == data && collectionsWithProducts == Organize(data)
      ensures currentCollection == if collectionsWithProducts != [] then collectionsWithProducts[0].collection else old(currentCollection)
    {
      allProducts := data;
      OrganizeCollections();
    }

    method OrganizeCollections()
      modifies this
      ensures allProducts == old(allProducts) && collectionsWithProducts == Organize(allProducts)
      ensures currentCollection == if collectionsWithProducts != [] then collectionsWithProducts[0].collection else old(currentCollection)
    {
      collectionsWithProducts := Organize(allProducts);
      if |collectionsWithProducts| > 0 {
        currentCollection := collectionsWithProducts[0].collection;
      }
    }

    /** The group shown in the hero: the first one named like the current collection. */
    function CurrentGroup(): (g: Option<CollectionGroup>)
      reads this
      ensures g.Some? ==> g.value in collectionsWithProducts && g.value.collection.name == currentCollection.name
      ensures g.None? <==> forall i :: 0 <= i < |collectionsWithProducts| ==>
                             collectionsWithProducts[i].collection.name != currentCollection.name
    {
      var name := currentCollection.name;
      Find(collectionsWithProducts, (c: CollectionGroup) => c.collection.name == name)
    }

    function GetFeaturedProducts(): (r: seq<ShowcaseProduct>)
      reads this
      ensures CurrentGroup().None? ==> r == []
      ensures CurrentGroup().Some? ==> r == CurrentGroup().value.featuredProducts
    {
      match CurrentGroup()
      case Some(g) => g.featuredProducts
      case None => []
    }

    function GetAdditionalProducts(): (r: seq<ShowcaseProduct>)
      reads this
      ensures CurrentGroup().None? ==> r == []
      ensures CurrentGroup().Some? ==> r == CurrentGroup().value.additionalProducts
    {
      match CurrentGroup()
      case Some(g) => g.additionalProducts
      case None => []
    }

    /** The groups are those of the stored catalogue, as `organizeCollections` leaves them. */
    predicate Organized()
      reads this
    {
      collectionsWithProducts == Organize(allProducts)
    }

    /** Once organised, the page has products exactly when the catalogue is not empty. */
    function HasProducts(): (r: bool)
      reads this
      ensures Organized() ==> (r <==> allProducts != [])
    {
      OrganizeEmpty(allProducts);
      |collectionsWithProducts| > 0
    }

    /** Once organised, featured products show exactly when some product is in the current collection. */
    function HasFeaturedProducts(): (r: bool)
      reads this
      ensures r ==> HasProducts()
      ensures Organized() ==> (r <==> currentCollection.name in Collections(allProducts))
    {
      // The lemmas are needed only for the organised case; the value is the same either way.
      var _ := if Organized() then
                 LookupInOrganized(allProducts, currentCollection.name, CurrentGroup());
                 GroupNonEmpty(allProducts, currentCollection.name);
                 0
               else 0;
      |GetFeaturedProducts()| > 0
    }

    /** Once organised, additional products show exactly when the current collection has more than four. */
    function HasAdditionalProducts(): (r: bool)
      reads this
      ensures r ==> HasProducts()
      ensures Organized() ==> (r <==> |Filter(allProducts, InCollection(currentCollection.name))| > 4)
    {
      // The lemmas are needed only for the organised case; the value is the same either way.
      var _ := if Organized() then
                 LookupInOrganized(allProducts, currentCollection.name, CurrentGroup());
                 GroupNonEmpty(allProducts, currentCollection.name);
                 0
               else 0;
      |GetAdditionalProducts()| > 0
    }
  }

  /** After organizing a non-empty catalogue, the hero shows the first group. */
  lemma HeroShowsFirstGroup(all: seq<ShowcaseProduct>)
    requires all != []
    ensures Organize(all) != [] && Organize(all)[0].collection.name == all[0].collection
  {
    var names := UniqueInOrder(Collections(all));
    assert Collections(all)[0] in names;
    UniqueInOrderIsFirstAppearance(Collections(all));
    var i :| 0 <= i < |names| && names[i] == all[0].collection;
  }
}

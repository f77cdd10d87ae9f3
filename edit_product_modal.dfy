/**
 * `EditProductModal.ts`: the admin dialog that edits a catalogue product. It copies the product
 * into a flat form, and on save builds the updated record from the form and the original.
 */
module EditProductModal {
  import opened Wrappers
  import opened Text
  import opened Products

  /** The form; prices and stocks are `null` (`None`) until entered, images are the chosen file names. */
  datatype EditForm = EditForm(
    name1: string, name2: string, color: string, frameMaterial: string, lensMaterial: string,
    price: Option<int>, stock: Option<int>, images: seq<string>, description: string,
    category: string, collection: string, status: string)

  const EmptyForm := EditForm("", "", "", "", "", None, None, [], "", "", "", "")
  const MissingFields := "Please fill in all required fields (Name 1, Price, Stock)"
  const Markup := 50000

  /** JavaScript truthiness of an optional number (`null` and `0` are false). */
  predicate NumberSet(n: Option<int>) {
    n.Some? && n.value != 0
  }

  /** The colour name the form shows: the first colour's, or `''` without colours. */
  function FirstColorName(p: Product): (name: string)
    ensures p.colors == [] ==> name == ""
    ensures p.colors != [] ==> name == p.colors[0].name
  {
    if p.colors == [] then "" else p.colors[0].name
  }

  /** `loadProductData`: the product as form values; the second name is the full name after its first word. */
  function LoadedForm(p: Product): (f: EditForm)
    ensures f.name1 == p.name && f.name2 == AfterFirst(p.fullName, ' ')
    ensures f.color == FirstColorName(p)
    ensures f.frameMaterial == p.materials.frame && f.lensMaterial == p.materials.lens
    ensures f.price == Some(p.price) && f.stock == Some(p.stock) && f.images == []
    ensures f.description == p.description && f.category == p.category
    ensures f.collection == p.collection && f.status == p.status
  {
    SplitTailJoin(p.fullName, ' ');
    EditForm(p.name, Join(Split(p.fullName, ' ')[1..], ' '), FirstColorName(p), p.materials.frame, p.materials.lens,
             Some(p.price), Some(p.stock), [], p.description, p.category, p.collection, p.status)
  }

  /** The check `saveProduct` makes: a first name, a price and a stock, none of them empty or zero. */
  predicate Savable(f: EditForm) {
    f.name1 != "" && NumberSet(f.price) && NumberSet(f.stock)
  }

  /** `a || b` on strings: the first unless it is empty. */
  function OrElse(a: string, b: string): (r: string)
    ensures a != "" ==> r == a
    ensures a == "" ==> r == b
  {
    if a != "" then a else b
  }

  /**
   * The record `saveProduct` emits: the original with the form's names, price (and the price plus
   * the markup as the original price), stock, category, collection, status and description; the
   * materials the form fills in; and one colour, based on the first, carrying the form stock.
   */
  function Updated(p: Product, f: EditForm): (u: Product)
    requires Savable(f)
    ensures u.id == p.id && u.code == p.code && u.features == p.features
    ensures u.specifications == p.specifications && u.selected == p.selected
    ensures u.name == f.name1 && u.fullName == Trim(f.name1 + " " + f.name2)
    ensures u.price == f.price.value && u.originalPrice == u.price + Markup && u.stock == f.stock.value
    ensures u.category == f.category && u.collection == f.collection && u.status == f.status && u.description == f.description
    ensures u.materials.temple == p.materials.temple
    ensures u.materials.frame == OrElse(f.frameMaterial, p.materials.frame)
    ensures u.materials.lens == OrElse(f.lensMaterial, p.materials.lens)
    ensures |u.colors| == 1 && u.colors[0].stock == f.stock.value && u.colors[0].name == OrElse(f.color, FirstColorName(p))
    ensures p.colors != [] ==> u.colors[0].code == p.colors[0].code && u.colors[0].image == p.colors[0].image
  {
    var base := if p.colors == [] then ProductColor("", "", "", 0) else p.colors[0];
    p.(name := f.name1,
       fullName := Trim(f.name1 + " " + f.name2),
       price := f.price.value,
       originalPrice := f.price.value + Markup,
       stock := f.stock.value,
       category := f.category,
       collection := f.collection,
       status := f.status,
       description := f.description,
       materials := p.materials.(frame := OrElse(f.frameMaterial, p.materials.frame),
                                 lens := OrElse(f.lensMaterial, p.materials.lens)),
       colors := [base.(name := OrElse(f.color, FirstColorName(p)), stock := f.stock.value)])
  }

  /** A text with no whitespace at either end is its own trim. */
  lemma TrimmedAlready(s: string)
    requires s != [] && !IsSpace(s[0]) && !IsSpace(s[|s| - 1])
    ensures Trim(s) == s
  {
    assert TrimStart(s) == s;
    assert TrimEnd(s) == s;
  }

  /**
   * Opening a product and saving the form untouched gives the product back, for a product whose
   * full name is its name and further words, whose original price carries the markup, and whose
   * one colour holds the stock.
   */
  lemma SaveUntouchedIsIdentity(p: Product, rest: string)
    requires p.name != [] && ' ' !in p.name && !IsSpace(p.name[0])
    requires rest != [] && !IsSpace(rest[|rest| - 1]) && p.fullName == p.name + " " + rest
    requires p.price != 0 && p.stock != 0 && p.originalPrice == p.price + Markup
    requires |p.colors| == 1 && p.colors[0].stock == p.stock
    ensures Savable(LoadedForm(p)) && Updated(p, LoadedForm(p)) == p
  {
    var f := LoadedForm(p);
    UntouchedFullName(p, rest);
    UpdatedFromOwnForm(p, f);
  }

  /** A form holding the product's own values, whose names rebuild its full name, saves as the product. */
  lemma UpdatedFromOwnForm(p: Product, f: EditForm)
    requires Savable(f) && Trim(f.name1 + " " + f.name2) == p.fullName
    requires f.name1 == p.name && f.price == Some(p.price) && f.stock == Some(p.stock)
    requires p.originalPrice == p.price + Markup && |p.colors| == 1 && p.colors[0].stock == p.stock
    requires f.color == p.colors[0].name && f.frameMaterial == p.materials.frame && f.lensMaterial == p.materials.lens
    requires f.category == p.category && f.collection == p.collection
    requires f.status == p.status && f.description == p.description
    ensures Updated(p, f) == p
  {
    var u := Updated(p, f);
    assert u.materials == p.materials;
    assert u.colors[0] == p.colors[0];
    assert u.colors == p.colors;
  }

  /** The full name rebuilt from an untouched form is the product's full name. */
  lemma UntouchedFullName(p: Product, rest: string)
    requires p.name != [] && ' ' !in p.name && !IsSpace(p.name[0])
    requires rest != [] && !IsSpace(rest[|rest| - 1]) && p.fullName == p.name + " " + rest
    ensures Trim(LoadedForm(p).name1 + " " + LoadedForm(p).name2) == p.fullName
  {
    AfterFirstWord(p.name, rest);
    assert p.fullName[0] == p.name[0] && p.fullName[|p.fullName| - 1] == rest[|rest| - 1];
    TrimmedAlready(p.fullName);
  }

  /** The text after the first space of a first word, a space and more is the more. */
  lemma AfterFirstWord(word: string, rest: string)
    requires ' ' !in word
    ensures AfterFirst(word + " " + rest, ' ') == rest
  {
    var s := word + " " + rest;
    var i := |word|;
    assert s[i] == ' ' && s[..i] == word;
    assert IndexOf(s, ' ') == Some(i);
    assert s[i + 1..] == rest;
  }

  /** `removeImage`: `images.splice(index, 1)`, where a negative index counts from the end. */
  function WithoutImage(images: seq<string>, index: int): (r: seq<string>)
    ensures 0 <= index < |images| ==> r == images[..index] + images[index + 1..]
    ensures index >= |images| ==> r == images
    ensures index < 0 && images != [] ==> r == images[..Start(|images|, index)] + images[Start(|images|, index) + 1..]
    ensures |r| == if index < |images| && images != [] then |images| - 1 else |images|
  {
    var start := Start(|images|, index);
    if start < |images| then images[..start] + images[start + 1..] else images
  }

  /** Where `splice` starts for a list of length `n`: a negative index counts from the end, clamped at 0. */
  function Start(n: nat, index: int): (start: nat)
    ensures index >= 0 ==> start == index
    ensures index < 0 ==> start < n || n == 0
  {
    if index < 0 then (if n + index > 0 then n + index else 0) else index
  }

  class EditProductModalComponent {
    var isVisible: bool
    var productToEdit: Option<Product>
    var product: EditForm

    constructor()
      ensures !isVisible && productToEdit == None && product == EmptyForm
    {
      isVisible := false;
      productToEdit := None;
      product := EmptyForm;
    }

    /** `ngOnChanges`: a new product to edit (when `productChanged`) refills the form. */
    method NgOnChanges(productChanged: bool, isVisible: bool, productToEdit: Option<Product>)
      modifies this
      ensures this.isVisible == isVisible && this.productToEdit == productToEdit
      ensures product == if productChanged && productToEdit.Some? then LoadedForm(productToEdit.value) else old(product)
    {
      this.isVisible := isVisible;
      this.productToEdit := productToEdit;
      if productChanged && productToEdit.Some? {
        LoadProductData();
      }
    }

    method LoadProductData()
      modifies this
      ensures isVisible == old(isVisible) && productToEdit == old(productToEdit)
      ensures product == if productToEdit.Some? then LoadedForm(productToEdit.value) else old(product)
    {
      if productToEdit.None? {
        return;
      }
      product := LoadedForm(productToEdit.value);
    }

    /** `closeModal`: hidden, form cleared, and `onClose` emitted. */
    method CloseModal() returns (closeEmitted: bool)
      modifies this
      ensures !isVisible && product == EmptyForm && productToEdit == old(productToEdit) && closeEmitted
    {
      isVisible := false;
      ResetForm();
      closeEmitted := true;
    }

    method ResetForm()
      modifies this
      ensures product == EmptyForm && isVisible == old(isVisible) && productToEdit == old(productToEdit)
    {
      product := EmptyForm;
    }

    /** `onImageSelect`: the chosen files replace the images, when the input has a file list. */
    method OnImageSelect(files: Option<seq<string>>)
      modifies this
      ensures product == if files.Some? then old(product).(images := files.value) else old(product)
      ensures isVisible == old(isVisible) && productToEdit == old(productToEdit)
    {
      if files.Some? {
        product := product.(images := files.value);
      }
    }

    method RemoveImage(index: int)
      modifies this
      ensures product == old(product).(images := WithoutImage(old(product).images, index))
      ensures isVisible == old(isVisible) && productToEdit == old(productToEdit)
    {
      product := product.(images := WithoutImage(product.images, index));
    }

    /**
     * `saveProduct`: nothing without a product under edit; the alert and nothing emitted when the
     * form is incomplete; otherwise the updated record is emitted and the dialog closes.
     */
    method SaveProduct() returns (alert: Option<string>, productUpdate: Option<Product>, closeEmitted: bool)
      modifies this
      ensures productToEdit == old(productToEdit)
      ensures old(productToEdit).None? ==>
                alert == None && productUpdate == None && !closeEmitted && product == old(product) && isVisible == old(isVisible)
      ensures old(productToEdit).Some? && !Savable(old(product)) ==>
                alert == Some(MissingFields) && productUpdate == None && !closeEmitted &&
                product == old(product) && isVisible == old(isVisible)
      ensures old(productToEdit).Some? && Savable(old(product)) ==>
                alert == None && productUpdate == Some(Updated(old(productToEdit).value, old(product))) &&
                closeEmitted && product == EmptyForm && !isVisible
    {
      if productToEdit.None? {
        return None, None, false;
      }
      if !Savable(product) {
        return Some(MissingFields), None, false;
      }
      productUpdate := Some(Updated(productToEdit.value, product));
      alert := None;
      closeEmitted := CloseModal();
    }
  }
}

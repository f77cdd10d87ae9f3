/** `AddProductModal.ts`: the admin dialog whose form is emitted, as entered, when it is complete. */
module AddProductModal {
  import opened Wrappers

  /** The form; prices and stocks are `null` (`None`) until entered, images are the chosen file names. */
  datatype AddForm = AddForm(
    name1: string, name2: string, color: string, frameMaterial: string, lensMaterial: string,
    price: Option<int>, stock: Option<int>, images: seq<string>, description: string)

  const EmptyForm := AddForm("", "", "", "", "", None, None, [], "")

  /**
   * `isFormValid`: every text field filled in, a price and a stock that are neither missing nor
   * zero, and at least one image; so a form that passes is never the reset form and always carries
   * an image, a price and a stock.
   */
  predicate IsFormValid(f: AddForm): (valid: bool)
    ensures valid ==> f != EmptyForm && |f.images| > 0 && f.price.Some? && f.stock.Some?
  {
    f.name1 != "" && f.name2 != "" && f.color != "" && f.frameMaterial != "" && f.lensMaterial != "" &&
    f.price.Some? && f.price.value != 0 && f.stock.Some? && f.stock.value != 0 &&
    f.description != "" && |f.images| > 0
  }

  /**
   * On a complete form, choosing files decides whether it can still be submitted: a non-empty
   * selection keeps it valid and an empty file list makes it invalid.
   */
  lemma ImagesDecideValidity(f: AddForm, files: seq<string>)
    requires IsFormValid(f)
    ensures IsFormValid(f.(images := files)) <==> files != []
  {
  }

  /** A reset form cannot be submitted, so a dialog just opened or closed emits nothing. */
  lemma EmptyFormInvalid()
    ensures !IsFormValid(EmptyForm)
    ensures !IsFormValid(EmptyForm.(name1 := "a", name2 := "b", color := "c", frameMaterial := "d", lensMaterial := "e",
                                    price := Some(1), stock := Some(1), description := "f"))
  {
  }

  class AddProductModalComponent {
    var isVisible: bool
    var product: AddForm

    constructor()
      ensures !isVisible && product == EmptyForm
    {
      isVisible := false;
      product := EmptyForm;
    }

    /** `closeModal`: hidden, form cleared, and `onClose` emitted. */
    method CloseModal() returns (closeEmitted: bool)
      modifies this
      ensures !isVisible && product == EmptyForm && closeEmitted
    {
      isVisible := false;
      ResetForm();
      closeEmitted := true;
    }

    method ResetForm()
      modifies this
      ensures product == EmptyForm && isVisible == old(isVisible)
    {
      product := EmptyForm;
    }

    /** `onImagesSelected`: the chosen files replace the images, when the input has a file list. */
    method OnImagesSelected(files: Option<seq<string>>)
      modifies this
      ensures product == if files.Some? then old(product).(images := files.value) else old(product)
      ensures isVisible == old(isVisible)
    {
      if files.Some? {
        product := product.(images := files.value);
      }
    }

    /** `onSubmit`: a valid form is emitted as a copy, then the dialog closes; an invalid one changes nothing. */
    method OnSubmit() returns (productAdd: Option<AddForm>, closeEmitted: bool)
      modifies this
      ensures IsFormValid(old(product)) ==>
                productAdd == Some(old(product)) && closeEmitted && !isVisible && product == EmptyForm
      ensures !IsFormValid(old(product)) ==>
                productAdd == None && !closeEmitted && isVisible == old(isVisible) && product == old(product)
    {
      if IsFormValid(product) {
        productAdd := Some(product);
        closeEmitted := CloseModal();
      } else {
        productAdd := None;
        closeEmitted := false;
      }
    }
  }
}

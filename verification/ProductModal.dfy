/**
 * The add / edit product dialog: the form loaded from a product, the image
 * list edits, and the record handed to the save handler.
 */
module ProductModal {
  import opened Wrappers
  import opened Lists
  import opened Catalog

  /** The dialog's form; price and stock are the text in their inputs. */
  datatype ProductForm = ProductForm(
    name: string,
    price: string,
    stock: string,
    category: string,
    description: string,
    image: string,
    images: seq<string>)

  const EmptyForm := ProductForm("", "", "", "", "", "", [])

  /** The image used when the form has none. */
  const DefaultImage: string :=
    "https://images.pexels.com/photos/3394650/pexels-photo-3394650.jpeg?auto=compress&cs=tinysrgb&w=400"

  /** The gallery used when the form has no extra images. */
  const DefaultImages: seq<string> := [
    "https://images.pexels.com/photos/3394650/pexels-photo-3394650.jpeg?auto=compress&cs=tinysrgb&w=600&h=800",
    "https://images.pexels.com/photos/1649771/pexels-photo-1649771.jpeg?auto=compress&cs=tinysrgb&w=600&h=800",
    "https://images.pexels.com/photos/205926/pexels-photo-205926.jpeg?auto=compress&cs=tinysrgb&w=600&h=800"
  ]

  /**
   * The form for `product`, whose price and stock print as `priceText` and
   * `stockText`: its fields copied, absent ones empty; no product gives the
   * empty form.
   */
  function FormFor(product: Option<Product>, priceText: string, stockText: string): (f: ProductForm)
    ensures product.None? ==> f == EmptyForm
    ensures product.Some? ==>
              && f.name == product.value.name && f.category == product.value.category
              && f.price == priceText && f.stock == stockText
              && f.image == product.value.image
              && f.description == product.value.description.GetOr("")
              && f.images == product.value.images.GetOr([])
  {
    match product
    case None => EmptyForm
    case Some(p) =>
      ProductForm(p.name, priceText, stockText, p.category, p.description.GetOr(""), p.image, p.images.GetOr([]))
  }

  /** The record the save button hands over; price and stock as parsed from the form text. */
  datatype Submission = Submission(
    name: string,
    price: real,
    stock: int,
    category: string,
    description: string,
    image: string,
    images: seq<string>)

  /**
   * `handleSubmit`, given the numbers `parseFloat` and `parseInt` read from
   * the price and stock text: an empty image becomes the default image and
   * an empty gallery the default gallery; everything else passes through.
   */
  function Submit(f: ProductForm, parsedPrice: real, parsedStock: int): (s: Submission)
    ensures s.image == (if f.image == "" then DefaultImage else f.image)
    ensures s.images == (if |f.images| == 0 then DefaultImages else f.images)
    ensures s.image != "" && |s.images| > 0
    ensures s.name == f.name && s.category == f.category && s.description == f.description
    ensures s.price == parsedPrice && s.stock == parsedStock
  {
    Submission(f.name, parsedPrice, parsedStock, f.category, f.description,
               if f.image == "" then DefaultImage else f.image,
               if |f.images| > 0 then f.images else DefaultImages)
  }

  /** Submitting a loaded form hands back the product's own images when it had some. */
  lemma SubmitKeepsLoadedImages(p: Product, priceText: string, stockText: string, parsedPrice: real, parsedStock: int)
    requires p.image != "" && p.images.Some? && |p.images.value| > 0
    ensures var s := Submit(FormFor(Some(p), priceText, stockText), parsedPrice, parsedStock);
            s.image == p.image && s.images == p.images.value
  {
  }

  /** The editable text fields. */
  datatype Field = Name | Price | Stock | Category | Description

  /**
   * The dialog's form state. The dialog stays mounted while closed, so the
   * form outlives a close and is reloaded only when the `product` it is
   * given differs from the one it last loaded (`shownProduct`).
   */
  class ProductFormState {
    var form: ProductForm
    var shownProduct: Option<Product>

    /** Mounting runs the effect once, with no product. */
    constructor ()
      ensures form == EmptyForm && shownProduct == None
    {
      form := EmptyForm;
      shownProduct := None;
    }

    /**
     * The dialog rendered with `product`: the effect reloads the form only
     * when the product changed since the last load; otherwise whatever the
     * form holds (unsaved typing included) stays.
     */
    method ReceiveProduct(product: Option<Product>, priceText: string, stockText: string)
      modifies this
      ensures product != old(shownProduct) ==> form == FormFor(product, priceText, stockText)
      ensures product == old(shownProduct) ==> form == old(form)
      ensures shownProduct == product
    {
      if product != shownProduct {
        form := FormFor(product, priceText, stockText);
      }
      shownProduct := product;
    }

    /** Typing in one text field changes that field only. */
    method EditField(field: Field, value: string)
      modifies this
      ensures shownProduct == old(shownProduct)
      ensures form == match field
                      case Name => old(form).(name := value)
                      case Price => old(form).(price := value)
                      case Stock => old(form).(stock := value)
                      case Category => old(form).(category := value)
                      case Description => old(form).(description := value)
    {
      match field
      case Name => form := form.(name := value);
      case Price => form := form.(price := value);
      case Stock => form := form.(stock := value);
      case Category => form := form.(category := value);
      case Description => form := form.(description := value);
    }

    /** The remove-image button of the main image. */
    method ClearImage()
      modifies this
      ensures shownProduct == old(shownProduct)
      ensures form == old(form).(image := "")
    {
      form := form.(image := "");
    }

    /**
     * A chosen file finished reading, as the data URL `dataUrl`. The load
     * handler spreads the form as it was when the file was chosen
     * (`captured`), so typing done while the file was read is dropped.
     */
    method ImageLoaded(captured: ProductForm, dataUrl: string)
      modifies this
      ensures form == captured.(image := dataUrl)
      ensures shownProduct == old(shownProduct)
    {
      form := captured.(image := dataUrl);
    }

    /**
     * `addImageUrl` with what the prompt returned (`None` when cancelled):
     * a non-empty answer is appended to the gallery; anything else changes nothing.
     */
    method AddImageUrl(answer: Option<string>)
      modifies this
      ensures shownProduct == old(shownProduct)
      ensures answer.Some? && answer.value != "" ==> form == old(form).(images := old(form).images + [answer.value])
      ensures !(answer.Some? && answer.value != "") ==> form == old(form)
    {
      if answer.Some? && answer.value != "" {
        form := form.(images := form.images + [answer.value]);
      }
    }

    /** `removeImage(index)`: drops the gallery entry at that position, if there is one. */
    method RemoveImage(index: int)
      modifies this
      ensures shownProduct == old(shownProduct)
      ensures form == old(form).(images := RemoveAt(old(form).images, index))
    {
      form := form.(images := RemoveAt(form.images, index));
    }
  }

  /** Removing the image just added gives back the gallery as it was. */
  lemma AddThenRemoveImage(images: seq<string>, url: string)
    ensures RemoveAt(images + [url], |images|) == images
  {
    assert (images + [url])[..|images|] == images;
  }

  /** Removing an entry keeps the others in order: the ones before it in place, the ones after it shifted down by one. */
  lemma RemoveImageKeepsOthers(images: seq<string>, index: int)
    requires 0 <= index < |images|
    ensures |RemoveAt(images, index)| == |images| - 1
    ensures forall j :: 0 <= j < index ==> RemoveAt(images, index)[j] == images[j]
    ensures forall j :: index <= j < |images| - 1 ==> RemoveAt(images, index)[j] == images[j + 1]
  {
  }
}

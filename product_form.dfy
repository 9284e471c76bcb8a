/** The admin's product form (components/admin/ProductFormModal.tsx): the
    form state with its list of image fields and their input modes, the
    edits on that list, and the submit step that validates the form and
    assembles the product to add or update. */
module ProductForm {
  import opened Types
  import opened Seqs
  import Text
  import ContentEditor

  /** The form's fields; the numbers are already parsed. */
  datatype Form = Form(
    nameAr: string,
    description: string,
    price: real,
    originalPrice: Option<real>,
    stock: int,
    subCategoryId: string,
    weight: Option<real>,
    dimensions: string,
    material: string,
    images: seq<Image>)

  const BlankImage := Image("", "")

  /** The empty form: one blank image, the first sub-category preselected. */
  function InitialForm(subCategories: seq<SubCategory>): (f: Form)
    ensures f.images == [BlankImage] && f.nameAr == "" && f.price == 0.0 && f.stock == 0
    ensures f.originalPrice.None? && f.weight.None? && f.dimensions == "" && f.material == ""
    ensures f.subCategoryId == if |subCategories| > 0 then subCategories[0].id else ""
  {
    Form("", "", 0.0, None, 0, if |subCategories| > 0 then subCategories[0].id else "", None, "", "", [BlankImage])
  }

  /** The form loaded from a product being edited: missing text becomes
      empty and a product without images gets one blank image field. */
  function FormOf(p: Product): (f: Form)
    ensures f.nameAr == p.nameAr && f.description == p.description && f.price == p.price && f.stock == p.stock
    ensures f.originalPrice == p.originalPrice && f.weight == p.weight
    ensures f.subCategoryId == p.subCategory.id
    ensures f.dimensions == (if TextTruthy(p.dimensions) then p.dimensions.value else "")
    ensures f.material == (if TextTruthy(p.material) then p.material.value else "")
    ensures f.images == (if |p.images| > 0 then p.images else [BlankImage])
  {
    Form(p.nameAr, p.description, p.price, p.originalPrice, p.stock, p.subCategory.id, p.weight,
         if TextTruthy(p.dimensions) then p.dimensions.value else "",
         if TextTruthy(p.material) then p.material.value else "",
         if |p.images| > 0 then p.images else [BlankImage])
  }

  // --- Image fields ---

  datatype Field = Url | Alt

  /** `handleImageChange`'s copy: the list with one field of image `index` replaced. */
  function Written(images: seq<Image>, index: int, field: Field, value: string): (r: seq<Image>)
    requires 0 <= index < |images|
    ensures |r| == |images|
    ensures r[index].url == (if field.Url? then value else images[index].url)
    ensures r[index].alt == (if field.Alt? then value else images[index].alt)
    ensures forall k :: 0 <= k < |r| && k != index ==> r[k] == images[k]
  {
    images[index := if field.Url? then images[index].(url := value) else images[index].(alt := value)]
  }

  /** The setter `prev => ({ ...prev, images: updated })`: the list it
      installs was copied when the handler ran, whatever `prev` holds. */
  function SetImages(prev: seq<Image>, updated: seq<Image>): seq<Image>
  {
    updated
  }

  /** `removeImageField` as the source has it: with one image left it makes
      two writes, each copied from the images of the same render, so the
      second (clearing the alt text) replaces the first (clearing the url). */
  function RemovedAsWritten(images: seq<Image>, index: int): seq<Image>
    requires 0 <= index < |images|
  {
    if |images| <= 1 then
      var clearUrl := Written(images, index, Url, "");
      var clearAlt := Written(images, index, Alt, "");
      SetImages(SetImages(images, clearUrl), clearAlt)
    else images[..index] + images[index + 1..]
  }

  /** Removing the last image field as written leaves its url in place. */
  lemma RemoveLastKeepsUrl(images: seq<Image>)
    requires |images| == 1
    ensures RemovedAsWritten(images, 0) == [Image(images[0].url, "")]
    ensures images[0].url != "" ==> RemovedAsWritten(images, 0) != [BlankImage]
  {
  }

  /** The evident intent: the last image field is cleared, any other one is
      dropped with the rest keeping their order. */
  function Removed(images: seq<Image>, index: int): (r: seq<Image>)
    requires 0 <= index < |images|
    ensures |images| <= 1 ==> r == [BlankImage]
    ensures |images| > 1 ==> |r| == |images| - 1
    ensures |images| > 1 ==> forall k :: 0 <= k < |r| ==> r[k] == images[if k < index then k else k + 1]
  {
    if |images| <= 1 then Written(Written(images, index, Url, ""), index, Alt, "")
    else images[..index] + images[index + 1..]
  }

  /** Both removals agree except on the last image field. */
  lemma RemovalsAgree(images: seq<Image>, index: int)
    requires 0 <= index < |images|
    ensures |images| > 1 ==> Removed(images, index) == RemovedAsWritten(images, index)
    ensures |images| == 1 ==> Removed(images, index) == [RemovedAsWritten(images, index)[0].(url := "")]
  {
  }

  /** A form being filled in, with one input mode per image field. */
  class Editor {
    var form: Form
    var inputTypes: seq<ContentEditor.ImageInput>

    predicate Valid()
      reads this
    {
      |form.images| == |inputTypes| && |form.images| >= 1
    }

    /** The effect on `[product, subCategories]`. */
    constructor(product: Option<Product>, subCategories: seq<SubCategory>)
      ensures form == (if product.Some? then FormOf(product.value) else InitialForm(subCategories))
      ensures forall k :: 0 <= k < |inputTypes| ==> inputTypes[k] == ContentEditor.UrlInput
      ensures Valid()
    {
      var f := if product.Some? then FormOf(product.value) else InitialForm(subCategories);
      form := f;
      inputTypes := seq(|f.images|, _ => ContentEditor.UrlInput);
    }

    /** `handleImageChange`: one field of one image changes. */
    method ChangeImage(index: int, field: Field, value: string)
      requires Valid() && 0 <= index < |form.images|
      modifies this
      ensures form == old(form).(images := Written(old(form.images), index, field, value))
      ensures inputTypes == old(inputTypes) && Valid()
    {
      form := form.(images := SetImages(form.images, Written(form.images, index, field, value)));
    }

    /** `handleInputTypeChange`: the mode changes and the url is cleared. */
    method ChangeInputType(index: int, t: ContentEditor.ImageInput)
      requires Valid() && 0 <= index < |form.images|
      modifies this
      ensures inputTypes == old(inputTypes)[index := t]
      ensures form == old(form).(images := Written(old(form.images), index, Url, ""))
      ensures Valid()
    {
      inputTypes := inputTypes[index := t];
      ChangeImage(index, Url, "");
    }

    /** `addImageField`: a blank image in url mode at the end. */
    method AddImageField()
      requires Valid()
      modifies this
      ensures form == old(form).(images := old(form.images) + [BlankImage])
      ensures inputTypes == old(inputTypes) + [ContentEditor.UrlInput]
      ensures Valid()
    {
      form := form.(images := form.images + [BlankImage]);
      inputTypes := inputTypes + [ContentEditor.UrlInput];
    }

    /** `removeImageField`, with the last field cleared as intended. */
    method RemoveImageField(index: int)
      requires Valid() && 0 <= index < |form.images|
      modifies this
      ensures form == old(form).(images := Removed(old(form.images), index))
      ensures inputTypes == if |old(form.images)| <= 1 then old(inputTypes)
                            else old(inputTypes)[..index] + old(inputTypes)[index + 1..]
      ensures Valid()
    {
      if |form.images| <= 1 {
        form := form.(images := Written(Written(form.images, index, Url, ""), index, Alt, ""));
      } else {
        form := form.(images := form.images[..index] + form.images[index + 1..]);
        inputTypes := inputTypes[..index] + inputTypes[index + 1..];
      }
    }
  }

  // --- Submit ---

  /** An image is saved when its url and alt text are not blank. */
  predicate Usable(img: Image)
  {
    Text.Trim(img.url) != "" && Text.Trim(img.alt) != ""
  }

  /** What submitting the form does. */
  datatype Outcome =
    | UnknownSubCategory
    | NoUsableImage
    | AddProduct(product: Product)
    | UpdateProduct(product: Product)

  function TextOrAbsent(s: string): (r: Option<string>)
    ensures r.None? <==> s == ""
    ensures r.Some? ==> r.value == s
  {
    if s == "" then None else Some(s)
  }

  function NumberOrAbsent(x: Option<real>): (r: Option<real>)
    ensures r.None? <==> !NumberTruthy(x)
    ensures r.Some? ==> r == x
  {
    if NumberTruthy(x) then x else None
  }

  /** `handleSubmit`: nothing is saved for an unknown sub-category or when no
      image is usable; otherwise the usable images, the found sub-category
      and the form's fields (empty optional ones as absent) go over the
      edited product, or over the defaults of a new one under `freshId`. */
  function Submit(f: Form, editing: Option<Product>, subCategories: seq<SubCategory>, freshId: string): (o: Outcome)
    ensures o == UnknownSubCategory <==> FindSubCategory(subCategories, f.subCategoryId).None?
    ensures o == NoUsableImage <==> FindSubCategory(subCategories, f.subCategoryId).Some? && Filter(f.images, Usable) == []
    ensures o.AddProduct? ==> editing.None?
    ensures o.UpdateProduct? ==> editing.Some?
  {
    var sc := FindSubCategory(subCategories, f.subCategoryId);
    if sc.None? then UnknownSubCategory
    else
      var images := Filter(f.images, Usable);
      if images == [] then NoUsableImage
      else
        var base := if editing.Some? then editing.value
                    else Product(freshId, "", Text.Slug(f.nameAr), "", 0.0, None, sc.value, [], Ratings(0.0, 0),
                                 true, false, Some([]), 0, None, None, None);
        var p := base.(nameAr := f.nameAr, description := f.description, price := f.price, stock := f.stock,
                       images := images, subCategory := sc.value,
                       originalPrice := NumberOrAbsent(f.originalPrice), weight := NumberOrAbsent(f.weight),
                       dimensions := TextOrAbsent(f.dimensions), material := TextOrAbsent(f.material));
        if editing.Some? then UpdateProduct(p) else AddProduct(p)
  }

  function Saved(o: Outcome): Product
    requires o.AddProduct? || o.UpdateProduct?
  {
    o.product
  }

  /** A saved product carries exactly the usable images, in order, the
      found sub-category and the form's fields; a new one starts unrated,
      new, not a bestseller, without colours and with the name's slug; an
      edited one keeps its id, slug, ratings, flags and colours. */
  lemma SubmitSaves(f: Form, editing: Option<Product>, subCategories: seq<SubCategory>, freshId: string)
    ensures var o := Submit(f, editing, subCategories, freshId);
            (o.AddProduct? || o.UpdateProduct?) ==>
              var p := Saved(o);
              p.images == Filter(f.images, Usable) && p.images != []
              && (forall img :: img in p.images <==> img in f.images && Usable(img))
              && Some(p.subCategory) == FindSubCategory(subCategories, f.subCategoryId)
              && p.nameAr == f.nameAr && p.description == f.description && p.price == f.price && p.stock == f.stock
              && p.originalPrice == NumberOrAbsent(f.originalPrice) && p.weight == NumberOrAbsent(f.weight)
              && p.dimensions == TextOrAbsent(f.dimensions) && p.material == TextOrAbsent(f.material)
    ensures var o := Submit(f, editing, subCategories, freshId);
            o.AddProduct? ==>
              o.product.id == freshId && o.product.slug == Text.Slug(f.nameAr)
              && o.product.ratings == Ratings(0.0, 0) && o.product.isNew && !o.product.isBestseller
              && o.product.colors == Some([])
    ensures var o := Submit(f, editing, subCategories, freshId);
            o.UpdateProduct? ==>
              var e := editing.value;
              o.product.id == e.id && o.product.slug == e.slug && o.product.ratings == e.ratings
              && o.product.isNew == e.isNew && o.product.isBestseller == e.isBestseller && o.product.colors == e.colors
  {
  }

  /** Opening a product for editing and saving at once gives the product
      back, when its images are all usable, its sub-category is the one the
      list finds under its id and its optional fields are absent rather than
      empty or zero. */
  lemma {:induction false} EditRoundTrip(p: Product, subCategories: seq<SubCategory>, freshId: string)
    requires |p.images| > 0 && forall k :: 0 <= k < |p.images| ==> Usable(p.images[k])
    requires FindSubCategory(subCategories, p.subCategory.id) == Some(p.subCategory)
    requires p.originalPrice.None? || NumberTruthy(p.originalPrice)
    requires p.weight.None? || NumberTruthy(p.weight)
    requires p.dimensions.None? || TextTruthy(p.dimensions)
    requires p.material.None? || TextTruthy(p.material)
    ensures Submit(FormOf(p), Some(p), subCategories, freshId) == UpdateProduct(p)
  {
    FilterAll(p.images, Usable);
  }
}

/** The admin's category form (components/admin/CategoryFormModal.tsx): the
    form and its image input mode, loaded from the category being edited,
    and the category the submit step saves. */
module CategoryForm {
  import opened Types
  import Text
  import ContentEditor

  /** What submitting the form asks for. */
  datatype Outcome = AddCategory(category: Category) | UpdateCategory(category: Category)

  /** The mode the form opens in: file for a stored upload (a `data:image`
      address), url otherwise; the homepage banner form picks the same. */
  function InputMode(image: string): (t: ContentEditor.ImageInput)
    ensures t.FileInput? <==> Text.StartsWith(image, "data:image")
    ensures t == ContentEditor.InitialInput(image)
  {
    if Text.StartsWith(image, "data:image") then ContentEditor.FileInput else ContentEditor.UrlInput
  }

  /** The form over the category being edited, if any. */
  class Editor {
    var nameAr: string
    var image: string
    var inputType: ContentEditor.ImageInput

    /** The effect on `[category]`. */
    constructor(category: Option<Category>)
      ensures category.Some? ==> nameAr == category.value.nameAr && image == category.value.image
      ensures category.Some? ==> inputType == InputMode(category.value.image)
      ensures category.None? ==> nameAr == "" && image == "" && inputType.UrlInput?
    {
      if category.Some? {
        nameAr := category.value.nameAr;
        image := category.value.image;
        inputType := InputMode(category.value.image);
      } else {
        nameAr := "";
        image := "";
        inputType := ContentEditor.UrlInput;
      }
    }

    /** `handleSubmit`: the edited category keeps a non-empty id and any
        other gets `freshId`; the slug comes from the name; name and image
        are the form's. */
    method Submit(editing: Option<Category>, freshId: string) returns (o: Outcome)
      ensures o.UpdateCategory? <==> editing.Some?
      ensures o.category.id == if editing.Some? && editing.value.id != "" then editing.value.id else freshId
      ensures o.category.slug == Text.Slug(nameAr)
      ensures o.category.nameAr == nameAr && o.category.image == image
    {
      var id := if editing.Some? && editing.value.id != "" then editing.value.id else freshId;
      var c := Category(id, nameAr, Text.Slug(nameAr), image);
      if editing.Some? {
        o := UpdateCategory(c);
      } else {
        o := AddCategory(c);
      }
    }
  }
}

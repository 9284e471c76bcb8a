/** The admin's sub-category form (components/admin/SubCategoryFormModal.tsx):
    the preselected main category, the form loaded from the sub-category
    being edited, and the sub-category the submit step saves. */
module SubCategoryForm {
  import opened Types
  import Text

  /** What submitting the form asks for. */
  datatype Outcome = AddSubCategory(subCategory: SubCategory) | UpdateSubCategory(subCategory: SubCategory)

  /** The first main category id among: the one the form was opened for, the
      edited sub-category's, the first category's; else empty. */
  function InitialMain(given: Option<string>, editing: Option<SubCategory>, categories: seq<Category>): (r: string)
    ensures TextTruthy(given) ==> r == given.value
    ensures !TextTruthy(given) && editing.Some? && editing.value.mainCategoryId != "" ==> r == editing.value.mainCategoryId
    ensures !TextTruthy(given) && !(editing.Some? && editing.value.mainCategoryId != "") ==>
              r == if |categories| > 0 then categories[0].id else ""
  {
    if TextTruthy(given) then given.value
    else if editing.Some? && editing.value.mainCategoryId != "" then editing.value.mainCategoryId
    else if |categories| > 0 then categories[0].id
    else ""
  }

  /** The form. */
  class Editor {
    var nameAr: string
    var mainCategoryId: string

    /** The initial state, then the effect on `[subCategory]`, which loads
        an edited sub-category's name and main category. */
    constructor(editing: Option<SubCategory>, given: Option<string>, categories: seq<Category>)
      ensures editing.Some? ==> nameAr == editing.value.nameAr && mainCategoryId == editing.value.mainCategoryId
      ensures editing.None? ==> nameAr == "" && mainCategoryId == InitialMain(given, editing, categories)
    {
      nameAr := "";
      mainCategoryId := InitialMain(given, editing, categories);
      if editing.Some? {
        nameAr := editing.value.nameAr;
        mainCategoryId := editing.value.mainCategoryId;
      }
    }

    /** `handleSubmit`: the edited sub-category keeps a non-empty id and any
        other gets `freshId`; the slug comes from the name; name and main
        category are the form's. */
    method Submit(editing: Option<SubCategory>, freshId: string) returns (o: Outcome)
      ensures o.UpdateSubCategory? <==> editing.Some?
      ensures o.subCategory.id == if editing.Some? && editing.value.id != "" then editing.value.id else freshId
      ensures o.subCategory.slug == Text.Slug(nameAr)
      ensures o.subCategory.nameAr == nameAr && o.subCategory.mainCategoryId == mainCategoryId
    {
      var id := if editing.Some? && editing.value.id != "" then editing.value.id else freshId;
      var sc := SubCategory(id, nameAr, Text.Slug(nameAr), mainCategoryId);
      if editing.Some? {
        o := UpdateSubCategory(sc);
      } else {
        o := AddSubCategory(sc);
      }
    }
  }
}

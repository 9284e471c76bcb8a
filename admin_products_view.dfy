/** The admin's product list (components/admin/ProductsView.tsx): the search
    and category filter, the confirmed delete, and the form's open state. */
module ProductsView {
  import opened Types
  import opened Seqs
  import Text

  const AllCategories: string := "all"

  /** A product is listed when its lower-cased name contains the lower-cased
      query and the filter is `all` or its main category. */
  predicate Listed(p: Product, query: string, categoryFilter: string)
  {
    Text.Includes(Text.Lower(p.nameAr), Text.Lower(query))
    && (categoryFilter == AllCategories || p.subCategory.mainCategoryId == categoryFilter)
  }

  function ListedBy(query: string, categoryFilter: string): Product -> bool
  {
    (p: Product) => Listed(p, query, categoryFilter)
  }

  /** `filteredProducts`, in catalogue order. */
  function Filtered(products: seq<Product>, query: string, categoryFilter: string): (r: seq<Product>)
    ensures forall p :: p in r <==> p in products && Listed(p, query, categoryFilter)
    ensures Subsequence(r, products)
  {
    FilterIsSubsequence(products, ListedBy(query, categoryFilter));
    Filter(products, ListedBy(query, categoryFilter))
  }

  /** The empty query under `all` lists the whole catalogue. */
  lemma EmptyQueryListsAll(products: seq<Product>)
    ensures Filtered(products, "", AllCategories) == products
  {
    forall p ensures Listed(p, "", AllCategories) {
      assert Text.Lower("") == "";
      assert "" <= Text.Lower(p.nameAr);
    }
    FilterAll(products, ListedBy("", AllCategories));
  }

  /** The screen's own state. */
  class View {
    var modalOpen: bool
    var editing: Option<Product>

    constructor()
      ensures !modalOpen && editing.None?
    {
      modalOpen := false;
      editing := None;
    }

    /** `handleOpenModal`: a product opens the form on it, none opens it empty. */
    method OpenModal(product: Option<Product>)
      modifies this
      ensures modalOpen && editing == product
    {
      editing := product;
      modalOpen := true;
    }

    /** `handleCloseModal`. */
    method CloseModal()
      modifies this
      ensures !modalOpen && editing.None?
    {
      modalOpen := false;
      editing := None;
    }
  }

  /** `handleDelete`: the id goes to the delete action only when confirmed. */
  function DeleteRequest(productId: string, confirmed: bool): (r: Option<string>)
    ensures r.Some? <==> confirmed
    ensures r.Some? ==> r.value == productId
  {
    IfConfirmed(confirmed, productId)
  }
}

/** The category store (src/store/slices/categorySlice.ts): the category
    list, the selected category and the loading/error flags. */
module CategorySlice {
  import opened Wrappers
  import opened NewsTypes

  /** The slug that selects every category. */
  const AllCategories := "all"

  class CategoryStore {
    var items: seq<Category>
    var selectedCategory: string
    var loading: bool
    var error: Option<string>

    /** `initialState`. */
    constructor ()
      ensures items == [] && selectedCategory == AllCategories && !loading && error == None
    {
      items, selectedCategory, loading, error := [], AllCategories, false, None;
    }

    /** `setSelectedCategory`: only the selection changes (in particular the
        news cursor is not reset). */
    method SetSelectedCategory(category: string)
      modifies this
      ensures selectedCategory == category
      ensures items == old(items) && loading == old(loading) && error == old(error)
    {
      selectedCategory := category;
    }

    /** `fetchCategories.pending`. */
    method FetchCategoriesPending()
      modifies this
      ensures loading && error == None
      ensures items == old(items) && selectedCategory == old(selectedCategory)
    {
      loading := true;
      error := None;
    }

    /** `fetchCategories.fulfilled`: the list is replaced; selection and error stay. */
    method FetchCategoriesFulfilled(categories: seq<Category>)
      modifies this
      ensures !loading && items == categories
      ensures selectedCategory == old(selectedCategory) && error == old(error)
    {
      loading := false;
      items := categories;
    }

    /** `fetchCategories.rejected`: the message is recorded, the list is kept. */
    method FetchCategoriesRejected(message: string)
      modifies this
      ensures !loading && error == Some(message)
      ensures items == old(items) && selectedCategory == old(selectedCategory)
    {
      loading := false;
      error := Some(message);
    }
  }
}

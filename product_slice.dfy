/**
 * The catalog store: the products and categories last fetched, a loading flag
 * for the product fetch, and the last error message. Each asynchronous fetch
 * reaches the store as three events: pending when it starts, then fulfilled
 * with the fetched list or rejected with an error message.
 */
module Catalog {
  import opened Wrappers

  datatype Category = Category(id: int, name: string, image: string)

  /** A product as the catalog API returns it; `price` in cents. */
  datatype Product = Product(id: int, title: string, price: int, images: seq<string>, category: Category)

  /** One request for a page of products. */
  datatype PageRequest = PageRequest(offset: int, limit: int)

  const DefaultProductLimit := 30
  const ProductsErrorFallback := "An unexpected error occurred while fetching products"
  const CategoriesErrorFallback := "Failed to load categories"

  /** The request `fetchProducts(limit)` sends: always the first page, 30 products when no limit is given. */
  function ProductsRequest(limit: Option<int>): (r: PageRequest)
    ensures r.offset == 0
    ensures limit.None? ==> r.limit == DefaultProductLimit
    ensures limit.Some? ==> r.limit == limit.value
  {
    PageRequest(0, match limit case None => DefaultProductLimit case Some(n) => n)
  }

  /**
   * `message || fallback`: the error's own message when it has a non-empty one,
   * the fallback otherwise. Never empty when the fallback is not.
   */
  function ErrorText(message: Option<string>, fallback: string): (e: string)
    ensures message.Some? && message.value != "" ==> e == message.value
    ensures message.None? || message == Some("") ==> e == fallback
    ensures fallback != "" ==> e != ""
  {
    if message.Some? && message.value != "" then message.value else fallback
  }

  class CatalogStore {
    var products: seq<Product>
    var categories: seq<Category>
    var loading: bool
    var error: Option<string>

    /** Whenever there is an error, its text is not empty (so it always shows as an error). */
    ghost predicate Valid()
      reads this
    {
      error != Some("")
    }

    /** The initial state: nothing fetched, not loading, no error. */
    constructor ()
      ensures Valid()
      ensures products == [] && categories == [] && !loading && error == None
    {
      products, categories, loading, error := [], [], false, None;
    }

    /** `clearError`: the error goes; nothing else changes. */
    method ClearError()
      requires Valid()
      modifies this
      ensures Valid()
      ensures error == None
      ensures products == old(products) && categories == old(categories) && loading == old(loading)
    {
      error := None;
    }

    /** `fetchProducts.pending`: loading starts and the old error is cleared; the lists stay. */
    method ProductsPending()
      requires Valid()
      modifies this
      ensures Valid()
      ensures loading && error == None
      ensures products == old(products) && categories == old(categories)
    {
      loading := true;
      error := None;
    }

    /** `fetchProducts.fulfilled`: the fetched list replaces the products wholesale; loading ends. */
    method ProductsFulfilled(payload: seq<Product>)
      requires Valid()
      modifies this
      ensures Valid()
      ensures products == payload && !loading
      ensures categories == old(categories) && error == old(error)
    {
      loading := false;
      products := payload;
    }

    /** `fetchProducts.rejected`: loading ends and the error is set; the lists stay. */
    method ProductsRejected(message: Option<string>)
      requires Valid()
      modifies this
      ensures Valid()
      ensures !loading && error == Some(ErrorText(message, ProductsErrorFallback))
      ensures products == old(products) && categories == old(categories)
    {
      loading := false;
      error := Some(ErrorText(message, ProductsErrorFallback));
    }

    /** `fetchCategories.pending`: only the error is cleared; the loading flag is not touched. */
    method CategoriesPending()
      requires Valid()
      modifies this
      ensures Valid()
      ensures error == None
      ensures products == old(products) && categories == old(categories) && loading == old(loading)
    {
      error := None;
    }

    /** `fetchCategories.fulfilled`: only the categories change. */
    method CategoriesFulfilled(payload: seq<Category>)
      requires Valid()
      modifies this
      ensures Valid()
      ensures categories == payload
      ensures products == old(products) && loading == old(loading) && error == old(error)
    {
      categories := payload;
    }

    /** `fetchCategories.rejected`: only the error changes. */
    method CategoriesRejected(message: Option<string>)
      requires Valid()
      modifies this
      ensures Valid()
      ensures error == Some(ErrorText(message, CategoriesErrorFallback))
      ensures products == old(products) && categories == old(categories) && loading == old(loading)
    {
      error := Some(ErrorText(message, CategoriesErrorFallback));
    }
  }
}

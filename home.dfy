/**
 * The home screen: category chips that filter the featured products, the
 * fixed slices of the catalog it shows, which of loader, error view or content
 * it renders, and the fetches it starts on mount and on retry.
 */
module Home {
  import opened Wrappers
  import opened Catalog

  /** The products of one category, in their order (the array `filter`). */
  function InCategory(products: seq<Product>, id: int): (kept: seq<Product>)
    ensures |kept| <= |products|
    ensures forall i :: 0 <= i < |kept| ==> kept[i].category.id == id && kept[i] in products
    ensures forall i :: 0 <= i < |products| && products[i].category.id == id ==> products[i] in kept
  {
    if products == [] then []
    else
      var rest := InCategory(products[..|products| - 1], id);
      var last := products[|products| - 1];
      assert forall i :: 0 <= i < |products| - 1 ==> products[i] == products[..|products| - 1][i];
      if last.category.id == id then rest + [last] else rest
  }

  /** Filtering two lists laid end to end filters each and keeps them in that order. */
  lemma {:induction false} InCategoryAppend(a: seq<Product>, b: seq<Product>, id: int)
    ensures InCategory(a + b, id) == InCategory(a, id) + InCategory(b, id)
    decreases |b|
  {
    if b == [] {
      assert a + b == a;
    } else {
      var b' := b[..|b| - 1];
      assert (a + b)[..|a + b| - 1] == a + b';
      InCategoryAppend(a, b', id);
    }
  }

  /** Filtering what is already filtered changes nothing. */
  lemma {:induction false} InCategoryIdempotent(products: seq<Product>, id: int)
    ensures InCategory(InCategory(products, id), id) == InCategory(products, id)
    decreases |products|
  {
    if products != [] {
      var init := products[..|products| - 1];
      var last := products[|products| - 1];
      InCategoryIdempotent(init, id);
      if last.category.id == id {
        InCategoryAppend(InCategory(init, id), [last], id);
        assert [last][..0] == [];
      }
    }
  }

  /**
   * `filteredProducts`: the selection is tested for truthiness, so no
   * selection and a selected id of 0 both show every product.
   */
  function FilteredProducts(products: seq<Product>, selected: Option<int>): (shown: seq<Product>)
    ensures selected.None? || selected == Some(0) ==> shown == products
    ensures selected.Some? && selected.value != 0 ==> shown == InCategory(products, selected.value)
  {
    if selected.Some? && selected.value != 0 then InCategory(products, selected.value) else products
  }

  /** A category chip: tapping the selected one clears the selection, any other selects it. */
  function ToggleCategory(selected: Option<int>, tapped: int): (next: Option<int>)
    ensures next.None? <==> selected == Some(tapped)
    ensures next.Some? ==> next.value == tapped
  {
    if selected == Some(tapped) then None else Some(tapped)
  }

  /** Tapping the same chip twice returns to the selection before, when that was none or that chip. */
  lemma ToggleTwice(selected: Option<int>, tapped: int)
    requires selected.None? || selected == Some(tapped)
    ensures ToggleCategory(ToggleCategory(selected, tapped), tapped) == selected
  {
  }

  function Min(a: int, b: int): int {
    if a < b then a else b
  }

  /** `Array.prototype.slice(start, end)` for non-negative bounds: indices are clamped to the length. */
  function Slice<T>(s: seq<T>, start: nat, end: nat): (r: seq<T>)
    ensures start <= end ==> |r| <= end - start
    ensures |r| <= |s|
    ensures forall i :: 0 <= i < |r| ==> start + i < |s| && r[i] == s[start + i]
    ensures start <= end && end <= |s| ==> r == s[start..end]
    ensures |s| <= start ==> r == []
    ensures start <= end && start < |s| ==> |r| == Min(end, |s|) - start
    ensures end <= start ==> r == []
  {
    var lo := Min(start, |s|);
    var hi := Min(end, |s|);
    if lo <= hi then s[lo..hi] else []
  }

  datatype HomeView =
    | Loader
    | ErrorView(message: string)
    | Content(categories: seq<Category>, featured: seq<Product>, recommended: seq<Product>)

  /** A JavaScript truthy error: present and not the empty string. */
  predicate Truthy(error: Option<string>) {
    error.Some? && error.value != ""
  }

  /**
   * What the screen renders: the loader while loading with no products, the
   * error view (with its retry button) when there is an error and no products,
   * otherwise five categories, six featured products of the selection, and
   * products 10 to 15 of the catalog whatever the selection.
   */
  function View(products: seq<Product>, categories: seq<Category>, loading: bool, error: Option<string>,
                selected: Option<int>): (v: HomeView)
    ensures v.Loader? <==> loading && products == []
    ensures v.ErrorView? <==> !(loading && products == []) && Truthy(error) && products == []
    ensures v.ErrorView? ==> v.message == error.value
    ensures v.Content? ==> |v.categories| <= 5 && v.categories == Slice(categories, 0, 5)
    ensures v.Content? ==> |v.featured| <= 6 && v.featured == Slice(FilteredProducts(products, selected), 0, 6)
    ensures v.Content? ==> v.recommended == Slice(products, 10, 16) && |v.recommended| <= 6
  {
    if loading && |products| == 0 then Loader
    else if Truthy(error) && |products| == 0 then ErrorView(error.value)
    else Content(Slice(categories, 0, 5), Slice(FilteredProducts(products, selected), 0, 6), Slice(products, 10, 16))
  }

  /** The two fetches `loadData` dispatches. */
  datatype Fetch = FetchCategories | FetchProducts(request: PageRequest)

  /**
   * `loadData` (on mount and from Retry): categories are requested first, then
   * the first 30 products. Dispatching runs each fetch's pending event at once.
   */
  method LoadData(store: CatalogStore) returns (fetches: seq<Fetch>)
    requires store.Valid()
    modifies store
    ensures store.Valid()
    ensures fetches == [FetchCategories, FetchProducts(ProductsRequest(Some(30)))]
    ensures fetches[1].request == PageRequest(0, 30)
    ensures store.loading && store.error == None
    ensures store.products == old(store.products) && store.categories == old(store.categories)
  {
    store.CategoriesPending();
    store.ProductsPending();
    fetches := [FetchCategories, FetchProducts(ProductsRequest(Some(30)))];
  }
}

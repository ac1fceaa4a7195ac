/**
 * The search screen: a text query and optional filters (exact price, price
 * range, one category) turned into a catalog URL whose query parameters come
 * in a fixed order, plus the "filters active" marker, the reset, the category
 * chips and what a response does to the results.
 */
module Discover {
  import opened Wrappers
  import opened JsText
  import opened Catalog

  const ProductsUrl := "https://api.escuelajs.co/api/v1/products"

  /** The five pieces of state that feed the search. Prices are the text typed in. */
  datatype Filters = Filters(
    query: string,
    minPrice: string,
    maxPrice: string,
    exactPrice: string,
    selectedCategoryId: Option<int>)

  datatype ParamKey = Title | Price | PriceMin | PriceMax | CategoryId

  /** The parameters' fixed order. */
  function Rank(k: ParamKey): nat {
    match k
    case Title => 0
    case Price => 1
    case PriceMin => 2
    case PriceMax => 3
    case CategoryId => 4
  }

  function KeyName(k: ParamKey): string {
    match k
    case Title => "title"
    case Price => "price"
    case PriceMin => "price_min"
    case PriceMax => "price_max"
    case CategoryId => "categoryId"
  }

  datatype Param = Param(key: ParamKey, value: string)

  /** How a parameter is written in the query string. */
  function Render(p: Param): string {
    KeyName(p.key) + "=" + p.value
  }

  function RenderAll(ps: seq<Param>): (r: seq<string>)
    ensures |r| == |ps|
    ensures forall i :: 0 <= i < |ps| ==> r[i] == Render(ps[i])
  {
    if ps == [] then [] else RenderAll(ps[..|ps| - 1]) + [Render(ps[|ps| - 1])]
  }

  /** `if (present) params.push(p)`. */
  function Push(ps: seq<Param>, present: bool, p: Param): seq<Param> {
    if present then ps + [p] else ps
  }

  /** The selected category id as text (only used when one is selected). */
  function CategoryText(id: Option<int>): string {
    if id.Some? then IntToDecimal(id.value) else ""
  }

  /**
   * The parameters the filters produce: a title when the query is not blank
   * (its value the encoded query, untrimmed), each price whose text is not
   * empty (as typed), and the category when one is selected.
   */
  function SearchParams(f: Filters, encode: string -> string): (ps: seq<Param>)
    ensures |ps| <= 5
    ensures ps == [] <==>
              IsBlank(f.query) && f.exactPrice == "" && f.minPrice == "" && f.maxPrice == "" && f.selectedCategoryId.None?
  {
    var withTitle := Push([], !IsBlank(f.query), Param(Title, encode(f.query)));
    var withPrice := Push(withTitle, f.exactPrice != "", Param(Price, f.exactPrice));
    var withMin := Push(withPrice, f.minPrice != "", Param(PriceMin, f.minPrice));
    var withMax := Push(withMin, f.maxPrice != "", Param(PriceMax, f.maxPrice));
    Push(withMax, f.selectedCategoryId.Some?, Param(CategoryId, CategoryText(f.selectedCategoryId)))
  }

  /** `Array.prototype.join`: the pieces with `sep` between neighbours. */
  function Join(pieces: seq<string>, sep: string): string {
    if pieces == [] then ""
    else if |pieces| == 1 then pieces[0]
    else Join(pieces[..|pieces| - 1], sep) + sep + pieces[|pieces| - 1]
  }

  /** A URL with a query string after `?`. */
  function WithQuery(base: string, query: string): string {
    base + "?" + query
  }

  /** The products URL, with `?` and the parameters joined by `&` only when there are some. */
  function Url(ps: seq<Param>): (u: string)
    ensures |ProductsUrl| <= |u| && u[..|ProductsUrl|] == ProductsUrl
    ensures u == ProductsUrl <==> ps == []
    ensures ps != [] ==> u[|ProductsUrl|] == '?'
  {
    if ps == [] then ProductsUrl else WithQuery(ProductsUrl, Join(RenderAll(ps), "&"))
  }

  /** Keys strictly increasing in the fixed order (so each appears at most once). */
  ghost predicate InOrder(ps: seq<Param>) {
    forall i, j :: 0 <= i < j < |ps| ==> Rank(ps[i].key) < Rank(ps[j].key)
  }

  ghost predicate RanksBelow(ps: seq<Param>, bound: nat) {
    forall i :: 0 <= i < |ps| ==> Rank(ps[i].key) < bound
  }

  lemma PushInOrder(ps: seq<Param>, present: bool, p: Param)
    requires InOrder(ps) && RanksBelow(ps, Rank(p.key))
    ensures InOrder(Push(ps, present, p)) && RanksBelow(Push(ps, present, p), Rank(p.key) + 1)
  {
  }

  /** The parameters come in the fixed order title, price, price_min, price_max, categoryId, each at most once. */
  lemma ParamsInOrder(f: Filters, encode: string -> string)
    ensures InOrder(SearchParams(f, encode))
  {
    var ps0: seq<Param> := [];
    var p1 := Param(Title, encode(f.query));
    PushInOrder(ps0, !IsBlank(f.query), p1);
    var ps1 := Push(ps0, !IsBlank(f.query), p1);
    var p2 := Param(Price, f.exactPrice);
    PushInOrder(ps1, f.exactPrice != "", p2);
    var ps2 := Push(ps1, f.exactPrice != "", p2);
    var p3 := Param(PriceMin, f.minPrice);
    PushInOrder(ps2, f.minPrice != "", p3);
    var ps3 := Push(ps2, f.minPrice != "", p3);
    var p4 := Param(PriceMax, f.maxPrice);
    PushInOrder(ps3, f.maxPrice != "", p4);
    var ps4 := Push(ps3, f.maxPrice != "", p4);
    var p5 := Param(CategoryId, CategoryText(f.selectedCategoryId));
    PushInOrder(ps4, f.selectedCategoryId.Some?, p5);
  }

  /** The value a parameter list carries for a key: the first one, if any. */
  function ValueOf(ps: seq<Param>, k: ParamKey): Option<string> {
    if ps == [] then None
    else if ps[0].key == k then Some(ps[0].value)
    else ValueOf(ps[1..], k)
  }

  /** No value exactly when no parameter has the key; a value is that of a parameter with the key. */
  lemma {:induction false} ValueOfMeans(ps: seq<Param>, k: ParamKey)
    ensures ValueOf(ps, k).None? <==> forall i :: 0 <= i < |ps| ==> ps[i].key != k
    ensures ValueOf(ps, k).Some? ==> Param(k, ValueOf(ps, k).value) in ps
  {
    if ps != [] && ps[0].key != k {
      ValueOfMeans(ps[1..], k);
      assert forall i :: 1 <= i < |ps| ==> ps[i] == ps[1..][i - 1];
    }
  }

  /** A push only adds a value for its own key, and only if the key had none. */
  lemma ValueOfPush(ps: seq<Param>, present: bool, p: Param, k: ParamKey)
    ensures ValueOf(Push(ps, present, p), k) ==
              if ValueOf(ps, k).Some? then ValueOf(ps, k)
              else if present && p.key == k then Some(p.value)
              else None
  {
    if present {
      ValueOfAppend(ps, p, k);
    }
  }

  /** Appending keeps the first value of a key, and supplies one only when there was none. */
  lemma {:induction false} ValueOfAppend(ps: seq<Param>, p: Param, k: ParamKey)
    ensures ValueOf(ps + [p], k) ==
              if ValueOf(ps, k).Some? then ValueOf(ps, k)
              else if p.key == k then Some(p.value)
              else None
  {
    if ps == [] {
      assert ps + [p] == [p] && [p][1..] == [];
    } else if ps[0].key != k {
      assert (ps + [p])[1..] == ps[1..] + [p];
      ValueOfAppend(ps[1..], p, k);
    }
  }

  /** The value each key should carry: the filter behind it, when that filter is set. */
  function Requested(f: Filters, encode: string -> string, k: ParamKey): Option<string> {
    match k
    case Title => if !IsBlank(f.query) then Some(encode(f.query)) else None
    case Price => if f.exactPrice != "" then Some(f.exactPrice) else None
    case PriceMin => if f.minPrice != "" then Some(f.minPrice) else None
    case PriceMax => if f.maxPrice != "" then Some(f.maxPrice) else None
    case CategoryId => if f.selectedCategoryId.Some? then Some(CategoryText(f.selectedCategoryId)) else None
  }

  /** The value for each key, read off the five optional pushes. */
  lemma ValuesOfFilters(f: Filters, encode: string -> string, k: ParamKey)
    ensures ValueOf(SearchParams(f, encode), k) == Requested(f, encode, k)
  {
    var ps1 := Push([], !IsBlank(f.query), Param(Title, encode(f.query)));
    ValueOfPush([], !IsBlank(f.query), Param(Title, encode(f.query)), k);
    var ps2 := Push(ps1, f.exactPrice != "", Param(Price, f.exactPrice));
    ValueOfPush(ps1, f.exactPrice != "", Param(Price, f.exactPrice), k);
    var ps3 := Push(ps2, f.minPrice != "", Param(PriceMin, f.minPrice));
    ValueOfPush(ps2, f.minPrice != "", Param(PriceMin, f.minPrice), k);
    var ps4 := Push(ps3, f.maxPrice != "", Param(PriceMax, f.maxPrice));
    ValueOfPush(ps3, f.maxPrice != "", Param(PriceMax, f.maxPrice), k);
    var p5 := Param(CategoryId, CategoryText(f.selectedCategoryId));
    ValueOfPush(ps4, f.selectedCategoryId.Some?, p5, k);
    assert SearchParams(f, encode) == Push(ps4, f.selectedCategoryId.Some?, p5);
  }

  /**
   * Which parameters appear, and with what value: the title iff the trimmed
   * query is not empty, with the encoded untrimmed query; each price iff its
   * text is not empty, as typed; the category iff one is selected.
   */
  lemma ParamValues(f: Filters, encode: string -> string)
    ensures ValueOf(SearchParams(f, encode), Title) == if Trim(f.query) != [] then Some(encode(f.query)) else None
    ensures ValueOf(SearchParams(f, encode), Price) == if f.exactPrice != "" then Some(f.exactPrice) else None
    ensures ValueOf(SearchParams(f, encode), PriceMin) == if f.minPrice != "" then Some(f.minPrice) else None
    ensures ValueOf(SearchParams(f, encode), PriceMax) == if f.maxPrice != "" then Some(f.maxPrice) else None
    ensures ValueOf(SearchParams(f, encode), CategoryId) ==
              if f.selectedCategoryId.Some? then Some(IntToDecimal(f.selectedCategoryId.value)) else None
  {
    TrimEmptyIffBlank(f.query);
    ValuesOfFilters(f, encode, Title);
    ValuesOfFilters(f, encode, Price);
    ValuesOfFilters(f, encode, PriceMin);
    ValuesOfFilters(f, encode, PriceMax);
    ValuesOfFilters(f, encode, CategoryId);
  }

  /** With no parameter the URL is the bare products URL, with no `?` in it. */
  lemma BareUrl(f: Filters, encode: string -> string)
    requires SearchParams(f, encode) == []
    ensures Url(SearchParams(f, encode)) == ProductsUrl
    ensures '?' !in Url(SearchParams(f, encode))
  {
  }

  lemma RenderPush(ps: seq<Param>, present: bool, p: Param)
    ensures RenderAll(Push(ps, present, p)) == if present then RenderAll(ps) + [Render(p)] else RenderAll(ps)
  {
    if present {
      assert (ps + [p])[..|ps|] == ps;
    }
  }

  lemma UrlOfRendered(ps: seq<Param>, params: seq<string>)
    requires params == RenderAll(ps)
    ensures Url(ps) == if |params| > 0 then WithQuery(ProductsUrl, Join(params, "&")) else ProductsUrl
  {
  }

  /**
   * `performSearch` up to the request: the parameters are pushed in the fixed
   * order and the URL gets `?` and their join only when there are some.
   */
  method BuildSearchUrl(f: Filters, encode: string -> string) returns (url: string)
    ensures url == Url(SearchParams(f, encode))
  {
    url := ProductsUrl;
    var params := PushParams(f, encode);
    UrlOfRendered(SearchParams(f, encode), params);
    if |params| > 0 {
      url := WithQuery(url, Join(params, "&"));
    }
  }

  /** The `params.push` steps of `performSearch`, in their order. */
  method PushParams(f: Filters, encode: string -> string) returns (params: seq<string>)
    ensures params == RenderAll(SearchParams(f, encode))
  {
    params := [];
    ghost var ps: seq<Param> := [];
    var p := Param(Title, encode(f.query));
    RenderPush(ps, !IsBlank(f.query), p);
    if !IsBlank(f.query) {
      params := params + [Render(p)];
    }
    ps := Push(ps, !IsBlank(f.query), p);
    p := Param(Price, f.exactPrice);
    RenderPush(ps, f.exactPrice != "", p);
    if f.exactPrice != "" {
      params := params + [Render(p)];
    }
    ps := Push(ps, f.exactPrice != "", p);
    p := Param(PriceMin, f.minPrice);
    RenderPush(ps, f.minPrice != "", p);
    if f.minPrice != "" {
      params := params + [Render(p)];
    }
    ps := Push(ps, f.minPrice != "", p);
    p := Param(PriceMax, f.maxPrice);
    RenderPush(ps, f.maxPrice != "", p);
    if f.maxPrice != "" {
      params := params + [Render(p)];
    }
    ps := Push(ps, f.maxPrice != "", p);
    p := Param(CategoryId, CategoryText(f.selectedCategoryId));
    RenderPush(ps, f.selectedCategoryId.Some?, p);
    if f.selectedCategoryId.Some? {
      params := params + [Render(p)];
    }
    ps := Push(ps, f.selectedCategoryId.Some?, p);
  }

  /** The marker on the filter button: any text typed (even only spaces) or a category chosen. */
  predicate HasActiveFilters(f: Filters): (active: bool)
    ensures !active <==> f == Filters("", "", "", "", None)
  {
    |f.query| > 0 || f.minPrice != "" || f.maxPrice != "" || f.exactPrice != "" || f.selectedCategoryId.Some?
  }

  /** With no filter active no parameter is sent. */
  lemma InactiveFiltersSendNothing(f: Filters, encode: string -> string)
    requires !HasActiveFilters(f)
    ensures SearchParams(f, encode) == []
  {
  }

  /** A query of spaces lights the marker but sends no parameter. */
  lemma BlankQueryIsActiveButNotSent(f: Filters, encode: string -> string)
    requires f.query != [] && IsBlank(f.query)
    requires f.minPrice == "" && f.maxPrice == "" && f.exactPrice == "" && f.selectedCategoryId.None?
    ensures HasActiveFilters(f)
    ensures SearchParams(f, encode) == []
  {
  }

  /** What came back from the catalog: a list, some other value, or a failed request. */
  datatype SearchResponse = ListData(products: seq<Product>) | OtherData | RequestFailed

  class SearchScreen {
    var query: string
    var minPrice: string
    var maxPrice: string
    var exactPrice: string
    var selectedCategoryId: Option<int>
    var results: seq<Product>
    var loading: bool

    function Current(): Filters
      reads this
    {
      Filters(query, minPrice, maxPrice, exactPrice, selectedCategoryId)
    }

    /** Mounting: no query, no filter, no results. */
    constructor ()
      ensures Current() == Filters("", "", "", "", None) && results == [] && !loading
    {
      query, minPrice, maxPrice, exactPrice, selectedCategoryId := "", "", "", "", None;
      results, loading := [], false;
    }

    /** 'Reset All': the five filter fields are emptied, so no filter is active; the results stay. */
    method ResetFilters()
      modifies this
      ensures Current() == Filters("", "", "", "", None)
      ensures !HasActiveFilters(Current())
      ensures results == old(results) && loading == old(loading)
    {
      minPrice, maxPrice, exactPrice := "", "", "";
      selectedCategoryId := None;
      query := "";
    }

    /** A category chip: tapping the selected one clears the selection, any other selects it. */
    method TapCategory(id: int)
      modifies this
      ensures old(selectedCategoryId) == Some(id) ==> selectedCategoryId == None
      ensures old(selectedCategoryId) != Some(id) ==> selectedCategoryId == Some(id)
      ensures query == old(query) && minPrice == old(minPrice) && maxPrice == old(maxPrice)
      ensures exactPrice == old(exactPrice) && results == old(results) && loading == old(loading)
    {
      selectedCategoryId := if selectedCategoryId == Some(id) then None else Some(id);
    }

    /** `performSearch` starts: loading shows and the request goes to the URL the filters give. */
    method StartSearch(encode: string -> string) returns (url: string)
      modifies this
      ensures url == Url(SearchParams(Current(), encode))
      ensures loading
      ensures Current() == old(Current()) && results == old(results)
    {
      loading := true;
      url := BuildSearchUrl(Current(), encode);
    }

    /** The response arrives: a list replaces the results, anything else empties them, a failure keeps them. */
    method SearchSettled(response: SearchResponse)
      modifies this
      ensures response.ListData? ==> results == response.products
      ensures response.OtherData? ==> results == []
      ensures response.RequestFailed? ==> results == old(results)
      ensures !loading && Current() == old(Current())
    {
      loading := false;
      match response
      case ListData(products) => results := products;
      case OtherData => results := [];
      case RequestFailed =>
    }
  }
}

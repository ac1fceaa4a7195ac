/**
 * The 'All Products' list: pages of ten products fetched by offset. The first
 * page replaces the list, later pages are appended, and a page shorter than
 * ten ends paging for good. A fetch is split into the moment it is asked for
 * (`BeginFetch`) and the moment its response, or its failure, arrives
 * (`CompleteFetch`).
 */
module ProductList {
  import opened Wrappers
  import opened Catalog

  const Limit := 10

  class ProductListScreen {
    var products: seq<Product>
    var offset: int
    var loading: bool
    var loadingMore: bool
    var hasMore: bool

    /** The offset only ever moves in whole pages from zero. */
    ghost predicate Valid()
      reads this
    {
      offset >= 0 && offset % Limit == 0
    }

    /** Mounting: an empty list at offset 0, nothing loading, more to come. */
    constructor ()
      ensures Valid()
      ensures products == [] && offset == 0 && !loading && !loadingMore && hasMore
    {
      products, offset, loading, loadingMore, hasMore := [], 0, false, false, true;
    }

    /**
     * `fetchProducts(currentOffset)` up to its request. It is dropped while the
     * first page loads, or while another page loads and this is not the first
     * page. Otherwise offset 0 raises `loading`, any other offset `loadingMore`,
     * and the request asks for ten products from that offset.
     */
    method BeginFetch(currentOffset: int) returns (request: Option<PageRequest>)
      modifies this
      ensures request.None? <==> old(loading) || (old(loadingMore) && currentOffset > 0)
      ensures request.Some? ==> request.value == PageRequest(currentOffset, Limit)
      ensures request.Some? && currentOffset == 0 ==> loading && loadingMore == old(loadingMore)
      ensures request.Some? && currentOffset != 0 ==> loadingMore && loading == old(loading)
      ensures request.None? ==> loading == old(loading) && loadingMore == old(loadingMore)
      ensures products == old(products) && offset == old(offset) && hasMore == old(hasMore)
    {
      if loading || (loadingMore && currentOffset > 0) {
        return None;
      }
      if currentOffset == 0 {
        loading := true;
      } else {
        loadingMore := true;
      }
      request := Some(PageRequest(currentOffset, Limit));
    }

    /**
     * The rest of `fetchProducts`: a page (`Some`) or a failure (`None`)
     * arrives. A short page ends paging; the first page replaces the list and
     * any other is appended in order; a failure leaves the list as it was.
     * Both loading flags end up false either way.
     */
    method CompleteFetch(currentOffset: int, result: Option<seq<Product>>)
      modifies this
      ensures !loading && !loadingMore
      ensures result.Some? && |result.value| < Limit ==> !hasMore
      ensures result.None? || |result.value| >= Limit ==> hasMore == old(hasMore)
      ensures hasMore ==> old(hasMore)
      ensures result.Some? && currentOffset == 0 ==> products == result.value
      ensures result.Some? && currentOffset != 0 ==> products == old(products) + result.value
      ensures result.None? ==> products == old(products)
      ensures offset == old(offset)
    {
      if result.Some? {
        var page := result.value;
        if |page| < Limit {
          hasMore := false;
        }
        if currentOffset == 0 {
          products := page;
        } else {
          products := products + page;
        }
      }
      loading := false;
      loadingMore := false;
    }

    /**
     * `handleLoadMore` (the end of the list was reached): unless a page is
     * already loading or paging has ended, the offset moves on by one page and
     * that page is fetched. The offset moves even when the fetch is then
     * dropped because the first page is still loading.
     */
    method LoadMore() returns (request: Option<PageRequest>)
      requires Valid()
      modifies this
      ensures Valid()
      ensures old(!loadingMore && hasMore) ==> offset == old(offset) + Limit
      ensures old(!loadingMore && hasMore) ==> (request.Some? <==> !old(loading))
      ensures old(!loadingMore && hasMore) ==> loading == old(loading)
      ensures old(!loadingMore && hasMore && loading) ==> loadingMore == old(loadingMore)
      ensures request.Some? ==> request.value == PageRequest(offset, Limit) && loadingMore
      ensures !old(!loadingMore && hasMore) ==>
                request.None? && offset == old(offset) && loading == old(loading) && loadingMore == old(loadingMore)
      ensures products == old(products) && hasMore == old(hasMore)
    {
      request := None;
      if !loadingMore && hasMore {
        var nextOffset := offset + Limit;
        offset := nextOffset;
        request := BeginFetch(nextOffset);
      }
    }
  }
}

/** The `InfiniteScroll` component as an object whose fields are its state and whose methods are the
    two halves of `loadMoreData` around its `await`, plus the sentinel observer's callback. */
module Component {
  import opened Products
  import opened Pagination

  class InfiniteScroll {
    var data: seq<Item>
    var page: int
    var loading: bool
    var hasMore: bool
    var totalPrice: int

    /** The component's state as a value of the pagination model. */
    function State(): Scroll
      reads this
    {
      Scroll(data, page, loading, hasMore, totalPrice)
    }

    ghost predicate Valid()
      reads this
    {
      Pagination.Valid(State())
    }

    /** The initial state: no rows, page 1, not loading, more data expected, total 0. */
    constructor ()
      ensures Valid() && State() == Initial()
      ensures data == [] && page == 1 && !loading && hasMore && totalPrice == 0
    {
      data := [];
      page := 1;
      loading := false;
      hasMore := true;
      totalPrice := 0;
    }

    /** `loadMoreData` up to its `await`: unless a fetch is outstanding or no data remains, raise
        `loading` and return the page index to request from the provider. */
    method BeginLoad() returns (request: Option<int>)
      requires Valid()
      modifies this
      ensures Valid() && State() == Begin(old(State())).next
      ensures request == Begin(old(State())).request
      ensures old(loading) || !old(hasMore) ==> request == None && State() == old(State())
      ensures !old(loading) && old(hasMore) ==> request == Some(old(page)) && loading
      ensures data == old(data) && page == old(page) && hasMore == old(hasMore) && totalPrice == old(totalPrice)
    {
      if loading || !hasMore {
        return None;
      }
      loading := true;
      request := Some(page);
    }

    /** `loadMoreData` after its `await`, given the provider's rows and end flag for the requested
        page: append, recompute the total over all rows, stop or advance, lower `loading`. */
    method CompleteLoad(items: seq<Item>, isEnd: bool)
      requires Valid() && loading
      modifies this
      ensures Valid() && State() == Complete(old(State()), items, isEnd)
      ensures data == old(data) + items && totalPrice == Sum(data) && !loading
      ensures isEnd ==> !hasMore && page == old(page)
      ensures !isEnd ==> hasMore == old(hasMore) && page == old(page) + 1
    {
      var newData := data + items;
      totalPrice := Reduce(0, newData);
      data := newData;
      if isEnd {
        hasMore := false;
      } else {
        page := page + 1;
      }
      loading := false;
    }

    /** The sentinel came into view (or left it). The observer is attached only while no fetch is
        outstanding and more data may remain, and it requests a load only on entering the view. */
    method OnSentinelVisible(isIntersecting: bool) returns (request: Option<int>)
      requires Valid()
      modifies this
      ensures Valid()
      ensures request.Some? <==> isIntersecting && !old(loading) && old(hasMore)
      ensures request.Some? ==> request.value == old(page) && loading
      ensures request.Some? ==> State() == Begin(old(State())).next
      ensures request.None? ==> State() == old(State())
    {
      if !loading && hasMore && isIntersecting {
        request := BeginLoad();
      } else {
        request := None;
      }
    }
  }

  /** Two pages, as a caller sees them through the contracts alone: the first page of two rows
      (prices 10 and 20) then the last page of one row (price 5); later requests do nothing. */
  method TwoPages(a: Item, b: Item, c: Item)
    requires a.price == 10 && b.price == 20 && c.price == 5
  {
    var list := new InfiniteScroll();
    var r := list.BeginLoad();
    assert r == Some(1);
    list.CompleteLoad([a, b], false);
    assert [a, b][1..] == [b] && [b][1..] == [];
    assert list.totalPrice == 30 && list.page == 2 && list.hasMore;
    r := list.BeginLoad();
    assert r == Some(2);
    list.CompleteLoad([c], true);
    assert list.data == [a, b, c];
    SumAppend([a, b], [c]);
    assert [c][1..] == [];
    assert list.totalPrice == 35 && list.page == 2 && !list.hasMore;
    r := list.BeginLoad();
    assert r == None && list.page == 2 && list.data == [a, b, c];
  }

  /** The sentinel fires twice before the first fetch is answered: only one fetch is issued. */
  method DoubleTrigger()
  {
    var list := new InfiniteScroll();
    var first := list.OnSentinelVisible(true);
    var second := list.OnSentinelVisible(true);
    assert first == Some(1) && second == None && list.loading;
  }
}

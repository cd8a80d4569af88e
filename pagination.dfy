/** The pagination state machine of the infinite-scroll list, as values: the five pieces of state,
    the guarded start of a load, the completion of a load, and traces of such events. */
module Pagination {
  import opened Products

  datatype Option<T> = None | Some(value: T)

  /** The accumulated rows, the page index to fetch next (`pageRef.current`), whether a fetch is
      outstanding, whether the provider may have more pages, and the displayed total price. */
  datatype Scroll = Scroll(data: seq<Item>, page: int, loading: bool, hasMore: bool, totalPrice: int)

  /** The state a freshly mounted component starts in. */
  function Initial(): Scroll
  {
    Scroll([], 1, false, true, 0)
  }

  /** What every reachable state satisfies: page indices are positive, the total is the sum of the
      rows, and a fetch is only outstanding while more data may remain. */
  ghost predicate Valid(s: Scroll)
  {
    s.page >= 1 && s.totalPrice == Sum(s.data) && (s.loading ==> s.hasMore)
  }

  /** The guard of a load request, which is also the condition under which the sentinel observer
      is attached: no fetch outstanding and more data may remain. */
  predicate CanLoad(s: Scroll)
  {
    !s.loading && s.hasMore
  }

  /** The state after the synchronous part of a load request, and the page it fetches (if any). */
  datatype Begun = Begun(next: Scroll, request: Option<int>)

  /** The part of a load request before the provider answers: the guard, then `loading` rises and
      the current page is requested. */
  function Begin(s: Scroll): (r: Begun)
    ensures r.request.Some? <==> CanLoad(s)
    ensures r.request.None? ==> r.next == s
    ensures r.request.Some? ==> r.request.value == s.page && r.next == s.(loading := true)
    ensures !CanLoad(r.next)
  {
    if CanLoad(s) then Begun(s.(loading := true), Some(s.page)) else Begun(s, None)
  }

  /** The part of a load request after the provider answered with `items` and `isEnd`: append,
      recompute the total over all rows, stop or advance the page, and lower `loading`. */
  function Complete(s: Scroll, items: seq<Item>, isEnd: bool): (r: Scroll)
    requires s.loading
    ensures r.data == s.data + items && r.data[..|s.data|] == s.data
    ensures r.totalPrice == Sum(r.data)
    ensures !r.loading
    ensures isEnd ==> !r.hasMore && r.page == s.page
    ensures !isEnd ==> r.hasMore == s.hasMore && r.page == s.page + 1
  {
    var data := s.data + items;
    var s1 := s.(data := data, totalPrice := Reduce(0, data));
    var s2 := if isEnd then s1.(hasMore := false) else s1.(page := s1.page + 1);
    s2.(loading := false)
  }

  /** Summing the whole list again, as the component does, equals adding only the new items'
      prices to the old total. */
  lemma CompleteIsIncremental(s: Scroll, items: seq<Item>, isEnd: bool)
    requires Valid(s) && s.loading
    ensures Complete(s, items, isEnd).totalPrice == s.totalPrice + Sum(items)
  {
    SumAppend(s.data, items);
  }

  /** The initial state is a valid one from which a load can start. */
  lemma InitialValid()
    ensures Valid(Initial()) && CanLoad(Initial())
  {
  }

  /** A second request made while the first one is outstanding does nothing: starting a load is
      idempotent. */
  lemma BeginIdempotent(s: Scroll)
    ensures Begin(Begin(s).next) == Begun(Begin(s).next, None)
  {
  }

  // ---------------------------------------------------------------------------------------------
  // Traces

  /** What can happen to the component: a load request (on mount, on re-render, or from the
      sentinel observer), or the provider's answer to the outstanding fetch. */
  datatype Event = Trigger | Resolve(items: seq<Item>, isEnd: bool)

  /** One event. An answer without an outstanding fetch is ignored; it cannot arise in the
      component, where the answer belongs to the `await` of the request that raised `loading`. */
  function Step(s: Scroll, e: Event): Scroll
  {
    match e
    case Trigger => Begin(s).next
    case Resolve(items, isEnd) => if s.loading then Complete(s, items, isEnd) else s
  }

  /** The state after a sequence of events. */
  function Run(s: Scroll, evs: seq<Event>): Scroll
    decreases |evs|
  {
    if evs == [] then s else Run(Step(s, evs[0]), evs[1..])
  }

  /** The page indices a single event requests from the provider. */
  function Issued(s: Scroll, e: Event): seq<int>
  {
    if e.Trigger? && CanLoad(s) then [s.page] else []
  }

  /** The page indices requested from the provider during a sequence of events, in order. */
  function Requests(s: Scroll, evs: seq<Event>): seq<int>
    decreases |evs|
  {
    if evs == [] then [] else Issued(s, evs[0]) + Requests(Step(s, evs[0]), evs[1..])
  }

  /** The rows appended during a sequence of events, in the order the answers arrived. */
  function Appended(s: Scroll, evs: seq<Event>): seq<Item>
    decreases |evs|
  {
    if evs == [] then []
    else
      var now := if evs[0].Resolve? && s.loading then evs[0].items else [];
      now + Appended(Step(s, evs[0]), evs[1..])
  }

  /** The number of provider answers accepted during a sequence of events. */
  function Answered(s: Scroll, evs: seq<Event>): nat
    decreases |evs|
  {
    if evs == [] then 0
    else (if evs[0].Resolve? && s.loading then 1 else 0) + Answered(Step(s, evs[0]), evs[1..])
  }

  /** `t` is a possible later state of `s`: the page index has not gone down, `hasMore` has not
      come back, and the rows of `s` are still the first rows of `t`. */
  ghost predicate Follows(s: Scroll, t: Scroll)
  {
    t.page >= s.page && (t.hasMore ==> s.hasMore) && s.data <= t.data
  }

  /** Every event keeps the state valid and only moves forward. */
  lemma StepValid(s: Scroll, e: Event)
    requires Valid(s)
    ensures Valid(Step(s, e)) && Follows(s, Step(s, e))
  {
  }

  /** Every sequence of events keeps the state valid: the total is always the sum of the rows,
      the page index never decreases, `hasMore` never returns, rows are never removed. */
  lemma {:induction false} RunValid(s: Scroll, evs: seq<Event>)
    requires Valid(s)
    ensures Valid(Run(s, evs)) && Follows(s, Run(s, evs))
    decreases |evs|
  {
    if evs != [] {
      var t := Step(s, evs[0]);
      StepValid(s, evs[0]);
      RunValid(t, evs[1..]);
    }
  }

  /** The rows are exactly the old rows followed by every answer's items in arrival order. */
  lemma {:induction false} RunData(s: Scroll, evs: seq<Event>)
    ensures Run(s, evs).data == s.data + Appended(s, evs)
    decreases |evs|
  {
    if evs == [] {
      assert s.data + [] == s.data;
    } else {
      var t := Step(s, evs[0]);
      RunData(t, evs[1..]);
    }
  }

  /** Once `hasMore` is false, nothing changes any more and nothing is fetched. */
  lemma {:induction false} Finished(s: Scroll, evs: seq<Event>)
    requires Valid(s) && !s.hasMore
    ensures Run(s, evs) == s && Requests(s, evs) == []
    decreases |evs|
  {
    if evs != [] {
      assert Step(s, evs[0]) == s;
      Finished(s, evs[1..]);
    }
  }

  /** The next page index that will be requested: the current one, unless it is being fetched. */
  function NextRequest(s: Scroll): int
  {
    if s.loading then s.page + 1 else s.page
  }

  /** Requested page indices are consecutive, starting from the next one to request: no page is
      fetched twice and none is skipped. */
  lemma {:induction false} RequestsConsecutive(s: Scroll, evs: seq<Event>)
    requires Valid(s)
    ensures forall i :: 0 <= i < |Requests(s, evs)| ==> Requests(s, evs)[i] == NextRequest(s) + i
    decreases |evs|
  {
    if evs != [] {
      var e, t := evs[0], Step(s, evs[0]);
      var rest := Requests(t, evs[1..]);
      StepValid(s, e);
      RequestsConsecutive(t, evs[1..]);
      if Issued(s, e) == [] && !t.hasMore {
        Finished(t, evs[1..]);
      }
      assert Issued(s, e) == [] ==> rest == [] || NextRequest(t) == NextRequest(s);
      assert Issued(s, e) != [] ==> Issued(s, e) == [NextRequest(s)] && NextRequest(t) == NextRequest(s) + 1;
    }
  }

  /** Every request is answered before the next one is sent: the requests issued, plus the one
      outstanding at the start, equal the answers accepted, plus the one outstanding at the end.
      Since at most one is outstanding at any time, at most one fetch is ever in flight. */
  lemma {:induction false} OneOutstanding(s: Scroll, evs: seq<Event>)
    requires Valid(s)
    ensures |Requests(s, evs)| + (if s.loading then 1 else 0)
            == Answered(s, evs) + (if Run(s, evs).loading then 1 else 0)
    decreases |evs|
  {
    if evs != [] {
      StepValid(s, evs[0]);
      OneOutstanding(Step(s, evs[0]), evs[1..]);
    }
  }

  /** From the freshly mounted component, the provider is asked for pages 1, 2, 3, ... in order,
      and the total price is the sum of every row received. */
  lemma FromMount(evs: seq<Event>)
    ensures forall i :: 0 <= i < |Requests(Initial(), evs)| ==> Requests(Initial(), evs)[i] == i + 1
    ensures Run(Initial(), evs).data == Appended(Initial(), evs)
    ensures Run(Initial(), evs).totalPrice == Sum(Appended(Initial(), evs))
  {
    RequestsConsecutive(Initial(), evs);
    RunData(Initial(), evs);
    RunValid(Initial(), evs);
    assert [] + Appended(Initial(), evs) == Appended(Initial(), evs);
  }
}

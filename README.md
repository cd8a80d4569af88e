# Infinite-scroll pagination, modelled in Dafny

This project models the loading logic of the `InfiniteScroll` React component of a small product-list
demo. The component holds five pieces of state:

- the accumulated product rows `data`;
- the page index `pageRef.current`, which starts at 1;
- the `loading` flag;
- the `hasMore` flag;
- the displayed `totalPrice`.

It changes them in one function, `loadMoreData`. That function does nothing while a fetch is
outstanding or after the last page. Otherwise it raises `loading` and awaits the mock provider's
answer for the current page. Then it appends the returned rows, recomputes the total over all rows,
and either clears `hasMore` (last page) or advances the page index. Finally it lowers `loading`.

The `await` splits the operation in two steps, and the model keeps that split:

- `BeginLoad` applies the guard, raises `loading` and returns the page to request.
- `CompleteLoad(items, isEnd)` takes the provider's answer as parameters and performs the rest.

The project has three files:

- `products.dfy` (module `Products`): the product row, the reference sum of prices `Sum`, the left
  fold `Reduce` that the component's `reduce` computes, and the append law of the sum.
- `pagination.dfy` (module `Pagination`): the state as a value (`Scroll`), the two halves of a load
  (`Begin`, `Complete`), and traces of events (`Trigger`, `Resolve`) with lemmas over all traces.
- `component.dfy` (module `Component`): the class `InfiniteScroll` with mutable fields and the methods
  `BeginLoad`, `CompleteLoad` and `OnSentinelVisible`. Each method's new state is tied to the
  functions of `Pagination`. Two client methods
  replay a two-page load (prices 10 and 20, then 5 on the last page) and a sentinel firing twice
  before the answer arrives.

Two points about the code's behaviour:

- The code does not load pages only when the sentinel becomes visible. An effect
  (src/components/InfiniteScroll.tsx:44-46) calls `loadMoreData` again whenever `loading` or
  `hasMore` changes, so pages keep loading after each completion until the last one. In the model,
  load requests are `Trigger` events from any origin, and the trace lemmas hold for every order of
  them. This covers both the effect and the observer.
- The total is recomputed over the whole list, as the code does (line 29). `CompleteIsIncremental`
  proves this equals adding only the new rows' prices.

## Model

| member | source | states |
|---|---|---|
| `Products.Reduce` | src/components/InfiniteScroll.tsx:29 | folding the prices left to right from `acc` gives `acc` plus the sum of all prices |
| `Products.SumAppend` | src/components/InfiniteScroll.tsx:28-29 | the sum of prices over old rows followed by new rows is the old sum plus the new sum |
| `Pagination.Begin` | src/components/InfiniteScroll.tsx:21-24 | a fetch is issued exactly when no fetch is outstanding and `hasMore` holds; otherwise the state is unchanged; an issued fetch asks for the current page and raises `loading`; afterwards no further load can start |
| `Pagination.Complete` | src/components/InfiniteScroll.tsx:27-41 | rows become old rows followed by the fetched rows in order; the total is the sum over all rows; `loading` is false; at the end `hasMore` is false and the page is unchanged; otherwise the page goes up by one and `hasMore` is unchanged |
| `Pagination.CompleteIsIncremental` | src/components/InfiniteScroll.tsx:29-30 | the total after a completion equals the old total plus the sum of the new rows' prices |
| `Pagination.InitialValid` | src/components/InfiniteScroll.tsx:12-18 | the initial state satisfies the invariant and a load can start from it |
| `Pagination.BeginIdempotent` | src/components/InfiniteScroll.tsx:21-23 | a second load request right after a first one issues no fetch and changes nothing |
| `Pagination.StepValid` | src/components/InfiniteScroll.tsx:20-42 | every request or answer keeps the invariant (page at least 1, total equals the sum, `loading` only while `hasMore`) and only moves forward |
| `Pagination.RunValid` | src/components/InfiniteScroll.tsx:12-42 | over any sequence of events the invariant holds, the page index never decreases, `hasMore` never becomes true again, and earlier rows stay the first rows |
| `Pagination.RunData` | src/components/InfiniteScroll.tsx:27-28 | after any sequence of events the rows are the old rows followed by every accepted answer's rows in arrival order |
| `Pagination.Finished` | src/components/InfiniteScroll.tsx:21-36 | once `hasMore` is false, no event changes the state and no page is fetched |
| `Pagination.RequestsConsecutive` | src/components/InfiniteScroll.tsx:21-39 | the requested page indices are consecutive from the next page to request, so no page is fetched twice or skipped |
| `Pagination.OneOutstanding` | src/components/InfiniteScroll.tsx:21-41 | over any sequence of events, the requests issued plus the one outstanding at the start equal the answers accepted plus the one outstanding at the end, so at most one fetch is in flight at a time |
| `Pagination.FromMount` | src/components/InfiniteScroll.tsx:12-39 | from the initial state the provider is asked for pages 1, 2, 3, … in order; the rows are exactly the received rows; the total is their price sum |
| `Component.InfiniteScroll.constructor` | src/components/InfiniteScroll.tsx:12-18 | a new component has no rows, page 1, `loading` false, `hasMore` true and total 0 |
| `Component.InfiniteScroll.BeginLoad` | src/components/InfiniteScroll.tsx:20-24 | if loading or at the end, nothing changes and no page is requested; otherwise `loading` rises and the current page is returned; rows, page, `hasMore` and total never change here |
| `Component.InfiniteScroll.CompleteLoad` | src/components/InfiniteScroll.tsx:27-41 | the new state is `Complete` of the old: rows appended in order, total equal to the sum, `hasMore` cleared or the page advanced, `loading` lowered |
| `Component.InfiniteScroll.OnSentinelVisible` | src/components/InfiniteScroll.tsx:50-58 | the observer requests a page exactly when the sentinel enters the view while it is attached (not loading, `hasMore`); the new state is then `Begin` of the old one; otherwise nothing changes |

## Left out

- Rendering: the JSX list, the status texts and the date formatting (src/components/InfiniteScroll.tsx:69-90) are presentation only.
- The browser's `IntersectionObserver` (construction, `observe`, `disconnect`, lines 52-66) is not modelled. Only its attachment guard (line 50) and the entry test (line 55) remain, in `OnSentinelVisible`.
- The mock provider `getMockData` (src/datas/MockData) is not part of this model. Its answer is the `items` and `isEnd` parameters of `CompleteLoad` and of the `Resolve` event.
- React scheduling is not modelled: batched and deferred `setState`, the `useCallback` closures and the effects re-running. Each event here reads the current state. In React, a callback made from an older render can still see `loading` as false, so two callbacks within one tick could both pass the guard. The model does not capture this.
- Prices are exact integers, not JavaScript floating-point numbers, so the total has no rounding.
- A failed fetch is not modelled: the provider never fails.
- src/App.tsx only wires one static route; it holds no logic.

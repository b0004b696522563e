/** The paginator over paged API responses. Both shipped versions behave
    identically; one class models them. The API call it makes is the
    `respond` function given at construction. */
module Paging {
  import opened Wrappers
  import opened CallOptions
  import opened Client

  /** The `meta` block of a paged response; `from` and `to` may be null. */
  datatype PageMeta = PageMeta(
    currentPage: int,
    from: Option<int>,
    lastPage: int,
    path: string,
    perPage: int,
    to: Option<int>,
    total: int)

  datatype PageResponse<D> = PageResponse(data: seq<D>, meta: PageMeta)

  /** What the mapper returns for one element: one item, or an array whose
      items are spliced into the page. */
  datatype MapperOutput<T> = Single(item: T) | Spread(items: seq<T>)

  function Spliced<T>(m: MapperOutput<T>): seq<T>
  {
    match m
    case Single(x) => [x]
    case Spread(xs) => xs
  }

  /** The `reduce` of the source: a left fold appending each output. */
  function ReduceMapped<D, T>(acc: seq<T>, data: seq<D>, mapper: D -> MapperOutput<T>): seq<T>
    decreases |data|
  {
    if data == [] then acc
    else ReduceMapped(acc + Spliced(mapper(data[0])), data[1..], mapper)
  }

  /** Reference definition: the outputs of the elements, in order. */
  function FlatMap<D, T>(data: seq<D>, mapper: D -> MapperOutput<T>): seq<T>
  {
    if data == [] then [] else Spliced(mapper(data[0])) + FlatMap(data[1..], mapper)
  }

  lemma {:induction false} ReduceIsFlatMap<D, T>(acc: seq<T>, data: seq<D>, mapper: D -> MapperOutput<T>)
    ensures ReduceMapped(acc, data, mapper) == acc + FlatMap(data, mapper)
    decreases |data|
  {
    if data != [] {
      ReduceIsFlatMap(acc + Spliced(mapper(data[0])), data[1..], mapper);
    }
  }

  /** With a mapper that returns single items, a page has one item per
      element, in the elements' order. */
  lemma {:induction false} SingleOutputsKeepOrder<D, T>(data: seq<D>, mapper: D -> MapperOutput<T>)
    requires forall i :: 0 <= i < |data| ==> mapper(data[i]).Single?
    ensures |FlatMap(data, mapper)| == |data|
    ensures forall i :: 0 <= i < |data| ==> FlatMap(data, mapper)[i] == mapper(data[i]).item
  {
    if data != [] {
      assert forall i :: 0 <= i < |data[1..]| ==> data[1..][i] == data[i + 1];
      SingleOutputsKeepOrder(data[1..], mapper);
    }
  }

  /** The items `_processData` returns: none past the last page, otherwise
      every mapper output in order. */
  function PageItems<D, T>(data: PageResponse<D>, mapper: D -> MapperOutput<T>): (items: seq<T>)
    ensures data.meta.currentPage > data.meta.lastPage ==> items == []
    ensures data.meta.currentPage <= data.meta.lastPage ==> items == FlatMap(data.data, mapper)
  {
    ReduceIsFlatMap([], data.data, mapper);
    if data.meta.currentPage > data.meta.lastPage then [] else ReduceMapped([], data.data, mapper)
  }

  /** `{ query: { page }, ...callOptions }`: a query in the call options
      replaces the page query. */
  function FetchOptions(callOptions: ApiCallOptions, page: int): (o: ApiCallOptions)
    ensures callOptions.query.None? ==> o == callOptions.(query := Some([QueryParam("page", QNumber(page))]))
    ensures callOptions.query.Some? ==> o == callOptions
  {
    callOptions.(query := Some(callOptions.query.GetOr([QueryParam("page", QNumber(page))])))
  }

  /** JavaScript truthiness of an optional number. */
  predicate Truthy(x: Option<int>)
  {
    x.Some? && x.value != 0
  }

  /** Every field the paginator keeps. `from` and `to` are undefined
      (outer `None`) until a page is processed, and may then be null. */
  datatype PagerState<D> = PagerState(
    isFinished: bool,
    path: Option<string>,
    currentPage: Option<int>,
    totalPages: Option<int>,
    from: Option<Option<int>>,
    to: Option<Option<int>>,
    perPage: Option<int>,
    total: Option<int>,
    currentData: Option<PageResponse<D>>)

  predicate IsReset<D>(s: PagerState<D>)
  {
    && !s.isFinished && s.path.None? && s.currentPage.None? && s.totalPages.None?
    && s.from.None? && s.to.None? && s.perPage.None? && s.total.None?
  }

  /** `reset`: every field cleared except the last raw response. */
  function ResetState<D>(s: PagerState<D>): (t: PagerState<D>)
    ensures IsReset(t) && t.currentData == s.currentData
  {
    PagerState(false, None, None, None, None, None, None, None, s.currentData)
  }

  /** `_processData`'s effect: finished once the current page reaches the
      last (and never unset here); every meta field and the raw response
      copied. */
  function Processed<D>(s: PagerState<D>, data: PageResponse<D>): (t: PagerState<D>)
    ensures t.isFinished <==> s.isFinished || data.meta.currentPage >= data.meta.lastPage
    ensures t.currentPage == Some(data.meta.currentPage) && t.totalPages == Some(data.meta.lastPage)
    ensures t.path == Some(data.meta.path) && t.from == Some(data.meta.from) && t.to == Some(data.meta.to)
    ensures t.perPage == Some(data.meta.perPage) && t.total == Some(data.meta.total)
    ensures t.currentData == Some(data)
  {
    PagerState(s.isFinished || data.meta.currentPage >= data.meta.lastPage,
      Some(data.meta.path), Some(data.meta.currentPage), Some(data.meta.lastPage),
      Some(data.meta.from), Some(data.meta.to), Some(data.meta.perPage), Some(data.meta.total), Some(data))
  }

  /** What `getNext` does from a state. */
  datatype NextStep = Done | FinishNow | FetchPage(page: int)

  function NextStepFrom<D>(s: PagerState<D>): (n: NextStep)
    ensures n == Done <==> s.isFinished
    ensures n == FinishNow <==>
      !s.isFinished && Truthy(s.currentPage) && Truthy(s.totalPages) && s.currentPage.value >= s.totalPages.value
    ensures n.FetchPage? && Truthy(s.currentPage) && Truthy(s.totalPages) ==>
      n.page == s.currentPage.value + 1 && n.page <= s.totalPages.value
    ensures n.FetchPage? && !(Truthy(s.currentPage) && Truthy(s.totalPages)) ==> n.page == 1
  {
    if s.isFinished then Done
    else if Truthy(s.currentPage) && Truthy(s.totalPages) then
      if s.currentPage.value >= s.totalPages.value then FinishNow
      else FetchPage(s.currentPage.value + 1)
    else FetchPage(1)
  }

  /** The page `getPrev` requests: never below 1. */
  function PrevPage<D>(s: PagerState<D>): (p: int)
    ensures p >= 1
    ensures s.currentPage.Some? && s.currentPage.value > 1 ==> p == s.currentPage.value - 1
    ensures !(s.currentPage.Some? && s.currentPage.value > 1) ==> p == 1
  {
    if Truthy(s.currentPage) && s.currentPage.value > 1 then s.currentPage.value - 1 else 1
  }

  /** `getPage` answers `[]` without a call when the page lies past a known
      (non-zero) total. */
  predicate PastKnownEnd<D>(s: PagerState<D>, page: int)
  {
    Truthy(s.totalPages) && page > s.totalPages.value
  }

  function Prepend<T>(items: seq<T>, rest: Result<seq<T>, CallError>): Result<seq<T>, CallError>
  {
    match rest
    case Ok(xs) => Ok(items + xs)
    case Err(e) => Err(e)
  }

  lemma PrependEmpty<T>(rest: Result<seq<T>, CallError>)
    ensures Prepend([], rest) == rest
  {
    if rest.Ok? {
      assert [] + rest.value == rest.value;
    }
  }

  lemma PrependAppend<T>(a: seq<T>, b: seq<T>, rest: Result<seq<T>, CallError>)
    ensures Prepend(a, Prepend(b, rest)) == Prepend(a + b, rest)
  {
    if rest.Ok? {
      assert a + (b + rest.value) == (a + b) + rest.value;
    }
  }

  /** The API answers page `p` (for every page up to `last`, and page 1)
      either with an error or with that page, reporting `last` as the last
      page. */
  ghost predicate Serves<D>(respond: ApiCallOptions -> Result<PageResponse<D>, CallError>, callOptions: ApiCallOptions, last: int)
  {
    forall p :: 1 <= p && (p == 1 || p <= last) ==>
      var resp := respond(FetchOptions(callOptions, p));
      resp.Err? || (resp.value.meta.currentPage == p && resp.value.meta.lastPage == last)
  }

  /** Everything `getAll` collects from page `page` on: the pages in
      order, stopping after an empty page or the last page, or the first
      error. */
  ghost function Collect<D, T>(respond: ApiCallOptions -> Result<PageResponse<D>, CallError>, callOptions: ApiCallOptions,
                               mapper: D -> MapperOutput<T>, page: int, last: int): Result<seq<T>, CallError>
    requires page >= 1
    decreases last - page
  {
    var resp := respond(FetchOptions(callOptions, page));
    if resp.Err? then Err(resp.error)
    else
      var items := PageItems(resp.value, mapper);
      if |items| == 0 || page >= last then Ok(items)
      else Prepend(items, Collect(respond, callOptions, mapper, page + 1, last))
  }

  class Paginator<D, T> {
    const respond: ApiCallOptions -> Result<PageResponse<D>, CallError>
    const callOptions: ApiCallOptions
    const mapper: D -> MapperOutput<T>

    var isFinished: bool
    var path: Option<string>
    var currentPage: Option<int>
    var totalPages: Option<int>
    var from: Option<Option<int>>
    var to: Option<Option<int>>
    var perPage: Option<int>
    var total: Option<int>
    var currentData: Option<PageResponse<D>>
    /** The pages requested so far, in order. */
    ghost var requested: seq<int>

    function State(): PagerState<D>
      reads this
    {
      PagerState(isFinished, path, currentPage, totalPages, from, to, perPage, total, currentData)
    }

    constructor(respond: ApiCallOptions -> Result<PageResponse<D>, CallError>, callOptions: ApiCallOptions,
                mapper: D -> MapperOutput<T>)
      ensures this.respond == respond && this.callOptions == callOptions && this.mapper == mapper
      ensures IsReset(State()) && currentData.None? && requested == []
    {
      this.respond := respond;
      this.callOptions := callOptions;
      this.mapper := mapper;
      isFinished := false;
      path, currentPage, totalPages, from, to, perPage, total := None, None, None, None, None, None, None;
      currentData := None;
      requested := [];
    }

    method Reset()
      modifies this
      ensures State() == ResetState(old(State())) && requested == old(requested)
    {
      isFinished := false;
      path, currentPage, totalPages, from, to, perPage, total := None, None, None, None, None, None, None;
    }

    method ProcessData(data: PageResponse<D>) returns (items: seq<T>)
      modifies this
      ensures State() == Processed(old(State()), data) && requested == old(requested)
      ensures items == PageItems(data, mapper)
    {
      if data.meta.currentPage >= data.meta.lastPage {
        isFinished := true;
      }
      currentPage := Some(data.meta.currentPage);
      currentData := Some(data);
      path := Some(data.meta.path);
      from := Some(data.meta.from);
      to := Some(data.meta.to);
      totalPages := Some(data.meta.lastPage);
      perPage := Some(data.meta.perPage);
      total := Some(data.meta.total);
      if currentPage.value > totalPages.value {
        return [];
      }
      items := ReduceMapped([], data.data, mapper);
    }

    /** The outcome of fetching `page` from state `before`: the call's error
        with the state untouched, or the processed page. */
    ghost predicate Fetched(before: PagerState<D>, page: int, r: Result<seq<T>, CallError>, after: PagerState<D>)
    {
      var resp := respond(FetchOptions(callOptions, page));
      if resp.Err? then r == Err(resp.error) && after == before
      else r == Ok(PageItems(resp.value, mapper)) && after == Processed(before, resp.value)
    }

    /** `_fetchData` followed by `_processData`. */
    method FetchAndProcess(page: int) returns (r: Result<seq<T>, CallError>)
      modifies this
      ensures Fetched(old(State()), page, r, State())
      ensures requested == old(requested) + [page]
    {
      requested := requested + [page];
      var resp := respond(FetchOptions(callOptions, page));
      if resp.Err? {
        return Err(resp.error);
      }
      var items := ProcessData(resp.value);
      r := Ok(items);
    }

    method GetPage(page: int) returns (r: Result<seq<T>, CallError>)
      modifies this
      ensures PastKnownEnd(old(State()), page) ==> r == Ok([]) && State() == old(State()) && requested == old(requested)
      ensures !PastKnownEnd(old(State()), page) ==>
        Fetched(old(State()), page, r, State()) && requested == old(requested) + [page]
    {
      if Truthy(totalPages) && page > totalPages.value {
        return Ok([]);
      }
      r := FetchAndProcess(page);
    }

    method GetNext() returns (r: Result<seq<T>, CallError>)
      modifies this
      ensures NextStepFrom(old(State())) == Done ==> r == Ok([]) && State() == old(State()) && requested == old(requested)
      ensures NextStepFrom(old(State())) == FinishNow ==>
        r == Ok([]) && State() == old(State()).(isFinished := true) && requested == old(requested)
      ensures NextStepFrom(old(State())).FetchPage? ==>
        Fetched(old(State()), NextStepFrom(old(State())).page, r, State()) &&
        requested == old(requested) + [NextStepFrom(old(State())).page]
    {
      if isFinished {
        return Ok([]);
      }
      var page := 1;
      if Truthy(currentPage) && Truthy(totalPages) {
        if currentPage.value >= totalPages.value {
          isFinished := true;
          return Ok([]);
        }
        page := currentPage.value + 1;
      }
      r := FetchAndProcess(page);
    }

    method GetPrev() returns (r: Result<seq<T>, CallError>)
      modifies this
      ensures Fetched(old(State()), PrevPage(old(State())), r, State())
      ensures requested == old(requested) + [PrevPage(old(State()))]
    {
      var page := 1;
      if Truthy(currentPage) && currentPage.value > 1 {
        page := currentPage.value - 1;
      }
      r := FetchAndProcess(page);
    }

    /** Inside getAll's loop the next page is the one after `page`. */
    lemma NextIsFollowingPage(before: PagerState<D>, page: int, last: int)
      requires 0 <= page && (page >= 1 ==> page < last)
      requires page == 0 ==> IsReset(before)
      requires page >= 1 ==> before.currentPage == Some(page) && before.totalPages == Some(last) && !before.isFinished
      ensures NextStepFrom(before) == FetchPage(page + 1)
    {
    }

    /** One page fetched inside getAll: what it adds to the collected
        result, and where the paginator then stands. */
    lemma AfterFetch(before: PagerState<D>, page: int, last: int, r: Result<seq<T>, CallError>, after: PagerState<D>)
      requires Serves(respond, callOptions, last)
      requires 0 <= page && (page >= 1 ==> page < last) && !before.isFinished
      requires Fetched(before, page + 1, r, after)
      ensures r.Err? ==> Collect(respond, callOptions, mapper, page + 1, last) == r
      ensures r.Ok? && |r.value| == 0 ==> Collect(respond, callOptions, mapper, page + 1, last) == Ok([])
      ensures r.Ok? && |r.value| > 0 ==> after.currentPage == Some(page + 1) && after.totalPages == Some(last)
      ensures r.Ok? && |r.value| > 0 && after.isFinished ==> Collect(respond, callOptions, mapper, page + 1, last) == r
      ensures r.Ok? && |r.value| > 0 && !after.isFinished ==>
        page + 1 < last &&
        Collect(respond, callOptions, mapper, page + 1, last) == Prepend(r.value, Collect(respond, callOptions, mapper, page + 2, last))
    {
      var resp := respond(FetchOptions(callOptions, page + 1));
      assert resp.Err? || (resp.value.meta.currentPage == page + 1 && resp.value.meta.lastPage == last);
    }

    /** `getAll`: reset, then `getNext` until an empty page or the end,
        then reset again. An error leaves the paginator where it stopped. */
    method GetAll(ghost last: int) returns (r: Result<seq<T>, CallError>)
      requires Serves(respond, callOptions, last)
      modifies this
      ensures r == Collect(respond, callOptions, mapper, 1, last)
      ensures r.Ok? ==> IsReset(State())
    {
      Reset();
      var result: seq<T> := [];
      ghost var page := 0;
      PrependEmpty(Collect(respond, callOptions, mapper, 1, last));
      while true
        invariant 0 <= page && (page >= 1 ==> page < last)
        invariant page == 0 ==> IsReset(State())
        invariant page >= 1 ==> currentPage == Some(page) && totalPages == Some(last) && !isFinished
        invariant Collect(respond, callOptions, mapper, 1, last) == Prepend(result, Collect(respond, callOptions, mapper, page + 1, last))
        decreases last - page
      {
        ghost var before := State();
        NextIsFollowingPage(before, page, last);
        ghost var previous := result;
        var data := GetNext();
        AfterFetch(before, page, last, data, State());
        if data.Err? {
          return Err(data.error);
        }
        if |data.value| == 0 {
          assert result + [] == result;
          break;
        }
        result := result + data.value;
        page := page + 1;
        if isFinished {
          break;
        }
        PrependAppend(previous, data.value, Collect(respond, callOptions, mapper, page + 1, last));
      }
      Reset();
      r := Ok(result);
    }
  }
}

/** The donations API: one page of donations, every page through the
    paginator, and the paginator's own request. Both shipped versions
    build the same requests. */
module Donations {
  import opened Wrappers
  import opened Values
  import opened CallOptions
  import opened Client
  import opened Paging

  const DonationsUrl := "alerts/donations"
  const DonationIndexScope := "oauth-donation-index"

  /** A donation wraps the raw element of the response. */
  datatype Donation = Donation(data: Value)

  /** The page asked for: the given page when it is a number other than 0,
      page 1 otherwise. */
  function PageNumber(page: Option<int>): (p: int)
    ensures p != 0
    ensures page.Some? && page.value != 0 ==> p == page.value
    ensures page.None? || page.value == 0 ==> p == 1
  {
    if page.Some? && page.value != 0 then page.value else 1
  }

  /** The options the paginator is built with: the same endpoint and
      scope, with no query. */
  function PaginatorOptions(): (o: ApiCallOptions)
    ensures o.url == DonationsUrl && o.callType == Some(Api) && o.httpMethod == Some(GET)
    ensures o.scope == Some(DonationIndexScope) && o.auth == Some(true)
    ensures o.query.None? && o.jsonBody.None? && o.formBody.None?
  {
    ApiCallOptions(DonationsUrl, Some(Api), Some(GET), None, None, None, Some(DonationIndexScope), Some(true))
  }

  /** getDonations: GET 'alerts/donations' for the normalised page. */
  function DonationsRequest(page: Option<int>): (o: ApiCallOptions)
    ensures o.url == DonationsUrl && o.callType == Some(Api) && o.httpMethod == Some(GET)
    ensures o.scope == Some(DonationIndexScope) && o.auth == Some(true)
    ensures o.query == Some([QueryParam("page", QNumber(PageNumber(page)))])
  {
    PaginatorOptions().(query := Some([QueryParam("page", QNumber(PageNumber(page)))]))
  }

  /** The paginator's request for page `p` is getDonations' request for
      that page, for every page getDonations would not renumber. */
  lemma PaginatorRequestsMatch(p: int)
    requires p != 0
    ensures FetchOptions(PaginatorOptions(), p) == DonationsRequest(Some(p))
  {
  }

  function DonationMapper(d: Value): (m: MapperOutput<Donation>)
    ensures m == Single(Donation(d))
  {
    Single(Donation(d))
  }

  /** getDonations' result: one donation per element, in order, whatever
      the page meta says. */
  function DonationsOf(response: PageResponse<Value>): (r: seq<Donation>)
    ensures |r| == |response.data|
    ensures forall i :: 0 <= i < |response.data| ==> r[i] == Donation(response.data[i])
  {
    SingleOutputsKeepOrder(response.data, DonationMapper);
    FlatMap(response.data, DonationMapper)
  }

  /** The paginator and getDonations agree on a page within range, while
      past the last page the paginator yields nothing and getDonations
      still wraps every element. */
  lemma PaginatorPageMatchesGetDonations(response: PageResponse<Value>)
    ensures response.meta.currentPage <= response.meta.lastPage ==>
      PageItems(response, DonationMapper) == DonationsOf(response)
    ensures response.meta.currentPage > response.meta.lastPage ==>
      PageItems(response, DonationMapper) == [] && |DonationsOf(response)| == |response.data|
  {
  }

  /** createDonationsPaginator: a fresh paginator over the donations
      endpoint. */
  method CreateDonationsPaginator(respond: ApiCallOptions -> Result<PageResponse<Value>, CallError>)
    returns (p: Paginator<Value, Donation>)
    ensures fresh(p)
    ensures p.respond == respond && p.callOptions == PaginatorOptions() && p.mapper == DonationMapper
    ensures IsReset(p.State()) && p.currentData.None?
  {
    p := new Paginator(respond, PaginatorOptions(), DonationMapper);
  }

  /** getAllDonations: every page the paginator collects, in order. */
  method GetAllDonations(respond: ApiCallOptions -> Result<PageResponse<Value>, CallError>, ghost last: int)
    returns (r: Result<seq<Donation>, CallError>)
    requires Serves(respond, PaginatorOptions(), last)
    ensures r == Collect(respond, PaginatorOptions(), DonationMapper, 1, last)
  {
    var pager := CreateDonationsPaginator(respond);
    r := pager.GetAll(last);
  }

  /** With a single page, getAllDonations returns getDonations' result for
      page 1. */
  lemma SinglePageCollected(respond: ApiCallOptions -> Result<PageResponse<Value>, CallError>)
    requires respond(DonationsRequest(Some(1))).Ok?
    requires respond(DonationsRequest(Some(1))).value.meta.currentPage == 1
    requires respond(DonationsRequest(Some(1))).value.meta.lastPage == 1
    ensures Collect(respond, PaginatorOptions(), DonationMapper, 1, 1) ==
      Ok(DonationsOf(respond(DonationsRequest(Some(1))).value))
  {
    PaginatorRequestsMatch(1);
    PaginatorPageMatchesGetDonations(respond(DonationsRequest(Some(1))).value);
  }
}

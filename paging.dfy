/** Search pagination with a first-page cache. Every search sequence owns one
    cache object. Asking for the first page (no continuation token) when the
    cache holds a page answers from the cache without calling the service;
    otherwise the service is called with the original request (no token) or
    with the request decoded from the token, and only a first page is stored. */
module Paging {
  import opened Wrappers
  import opened Primitives
  import opened Http
  import opened Streams
  import opened Requests

  /** The service's raw answer to one search call. */
  datatype SearchDocumentsResult<RawHit, RawFacet> = SearchDocumentsResult(
    results: seq<RawHit>,
    nextLink: Option<string>,
    nextPageParameters: Option<SearchRequest>,
    facets: Option<map<string, seq<RawFacet>>>,
    count: Option<int>,
    coverage: Option<Double>)

  /** One page as the caller sees it. */
  datatype SearchPagedResponse<Hit, Facet> = SearchPagedResponse(
    statusCode: int,
    value: seq<Hit>,
    continuationToken: Option<string>,
    facets: Option<map<string, seq<Facet>>>,
    count: Option<int>,
    coverage: Option<Double>)

  /** The continuation-token codec, whose format is not part of this model:
      `serialize(version, nextLink, nextPageParameters)` and
      `deserialize(version, token)`, which yields no request for a token it
      rejects. */
  datatype TokenCodec = TokenCodec(
    serialize: (string, Option<string>, Option<SearchRequest>) -> Option<string>,
    deserialize: (string, string) -> Option<SearchRequest>)

  datatype SearchError = InvalidContinuationToken | ServiceFailure(cause: ServiceError)

  /** `mapped` is `raw` with every facet list converted element-wise under the
      same keys, and null exactly when `raw` is null. */
  ghost predicate FacetsMapped<W, F>(raw: Option<map<string, seq<W>>>, mapped: Option<map<string, seq<F>>>,
                                     convert: W -> F)
  {
    && (raw.None? <==> mapped.None?)
    && (raw.Some? && mapped.Some? ==>
          && mapped.value.Keys == raw.value.Keys
          && forall k :: k in raw.value ==>
               && |mapped.value[k]| == |raw.value[k]|
               && forall i :: 0 <= i < |raw.value[k]| ==> mapped.value[k][i] == convert(raw.value[k][i]))
  }

  /** `getFacets`: null stays null; otherwise a new map is filled key by key. */
  method GetFacets<W, F>(facets: Option<map<string, seq<W>>>, convert: W -> F)
    returns (r: Option<map<string, seq<F>>>)
    ensures FacetsMapped(facets, r, convert)
  {
    if facets.None? {
      return None;
    }
    var source := facets.value;
    var result: map<string, seq<F>> := map[];
    var pending := source.Keys;
    while pending != {}
      invariant pending <= source.Keys
      invariant result.Keys == source.Keys - pending
      invariant forall k :: k in result ==> result[k] == MapList(source[k], convert)
      decreases pending
    {
      var key :| key in pending;
      result := result[key := MapList(source[key], convert)];
      pending := pending - {key};
    }
    r := Some(result);
  }

  /** The per-sequence holder of the first page. */
  class SearchFirstPageResponseWrapper<P> {
    var firstPageResponse: Option<P>

    constructor ()
      ensures firstPageResponse == None
    {
      firstPageResponse := None;
    }

    function GetFirstPageResponse(): Option<P>
      reads this
    {
      firstPageResponse
    }

    method SetFirstPageResponse(page: P)
      modifies this
      ensures firstPageResponse == Some(page)
    {
      firstPageResponse := Some(page);
    }
  }

  /** The search endpoint of the service. Its answer to call number `n` with
      a request is `reply(n, request)`; `sent` records every request sent, so
      its length is the number of calls made. */
  class SearchService<RawHit, RawFacet> {
    var sent: seq<SearchRequest>
    const reply: (nat, SearchRequest) -> Result<Response<SearchDocumentsResult<RawHit, RawFacet>>, ServiceError>

    constructor (reply: (nat, SearchRequest) -> Result<Response<SearchDocumentsResult<RawHit, RawFacet>>, ServiceError>)
      ensures sent == [] && this.reply == reply
    {
      sent := [];
      this.reply := reply;
    }

    method SearchPost(request: SearchRequest)
      returns (response: Result<Response<SearchDocumentsResult<RawHit, RawFacet>>, ServiceError>)
      modifies this`sent
      ensures sent == old(sent) + [request]
      ensures response == reply(|old(sent)|, request)
    {
      response := reply(|sent|, request);
      sent := sent + [request];
    }
  }

  /** The client: its service version, the service it talks to, the token
      codec and the converters from raw rows to public rows. */
  class SearchAsyncClient<RawHit, Hit, RawFacet, Facet> {
    const serviceVersion: string
    const service: SearchService<RawHit, RawFacet>
    const codec: TokenCodec
    const convertHit: RawHit -> Hit
    const convertFacet: RawFacet -> Facet
    const renderScoringParameter: ScoringParameter -> string

    constructor (serviceVersion: string, service: SearchService<RawHit, RawFacet>, codec: TokenCodec,
                 convertHit: RawHit -> Hit, convertFacet: RawFacet -> Facet,
                 renderScoringParameter: ScoringParameter -> string)
      ensures this.serviceVersion == serviceVersion && this.service == service && this.codec == codec
      ensures this.convertHit == convertHit && this.convertFacet == convertFacet
      ensures this.renderScoringParameter == renderScoringParameter
    {
      this.serviceVersion := serviceVersion;
      this.service := service;
      this.codec := codec;
      this.convertHit := convertHit;
      this.convertFacet := convertFacet;
      this.renderScoringParameter := renderScoringParameter;
    }

    /** The request a fetch sends: the sequence's own request without a
        token, the decoded one with a token (none if the codec rejects it). */
    function RequestToUse(request: SearchRequest, continuationToken: Option<string>): Option<SearchRequest>
    {
      match continuationToken
      case None => Some(request)
      case Some(token) => codec.deserialize(serviceVersion, token)
    }

    /** `page` is what the client builds from a successful service response:
        the same status, the rows converted in order, the next-page token
        from the codec, the facets mapped, count and coverage copied. */
    ghost predicate IsPageOf(page: SearchPagedResponse<Hit, Facet>,
                             response: Response<SearchDocumentsResult<RawHit, RawFacet>>)
    {
      var result := response.value;
      && page.statusCode == response.statusCode
      && |page.value| == |result.results|
      && (forall i :: 0 <= i < |result.results| ==> page.value[i] == convertHit(result.results[i]))
      && page.continuationToken == codec.serialize(serviceVersion, result.nextLink, result.nextPageParameters)
      && FacetsMapped(result.facets, page.facets, convertFacet)
      && page.count == result.count
      && page.coverage == result.coverage
    }

    /** `r` is the client's answer to the service's `reply`. */
    ghost predicate AnswersReply(r: Result<SearchPagedResponse<Hit, Facet>, SearchError>,
                                 reply: Result<Response<SearchDocumentsResult<RawHit, RawFacet>>, ServiceError>)
    {
      && (reply.Failure? ==> r == Failure(ServiceFailure(reply.error)))
      && (reply.Success? ==> r.Success? && IsPageOf(r.value, reply.value))
    }

    /** The private `search(request, requestOptions, token, wrapper, context)`:
        fetch one page of the sequence whose request is `request` and whose
        first-page cache is `wrapper`. */
    method FetchSearchPage(request: SearchRequest, continuationToken: Option<string>,
                           wrapper: SearchFirstPageResponseWrapper<SearchPagedResponse<Hit, Facet>>)
      returns (r: Result<SearchPagedResponse<Hit, Facet>, SearchError>)
      modifies wrapper, service
      // a first-page request with a cached page: the cached page, no call
      ensures continuationToken.None? && old(wrapper.firstPageResponse).Some? ==>
                r == Success(old(wrapper.firstPageResponse).value) && service.sent == old(service.sent)
      // a first-page request with an empty cache: one call with the sequence's own request
      ensures continuationToken.None? && old(wrapper.firstPageResponse).None? ==>
                && service.sent == old(service.sent) + [request]
                && AnswersReply(r, service.reply(|old(service.sent)|, request))
      // a token the codec rejects: an error, no call
      ensures continuationToken.Some? && codec.deserialize(serviceVersion, continuationToken.value).None? ==>
                r == Failure(InvalidContinuationToken) && service.sent == old(service.sent)
      // a token the codec accepts: one call with the decoded request; the cache is left alone
      ensures continuationToken.Some? && codec.deserialize(serviceVersion, continuationToken.value).Some? ==>
                && service.sent == old(service.sent) + [codec.deserialize(serviceVersion, continuationToken.value).value]
                && AnswersReply(r, service.reply(|old(service.sent)|,
                                                 codec.deserialize(serviceVersion, continuationToken.value).value))
                && wrapper.firstPageResponse == old(wrapper.firstPageResponse)
      // only a page fetched without a token is cached
      ensures wrapper.firstPageResponse ==
                if continuationToken.None? && r.Success? then Some(r.value) else old(wrapper.firstPageResponse)
    {
      if continuationToken.None? && wrapper.GetFirstPageResponse().Some? {
        return Success(wrapper.GetFirstPageResponse().value);
      }
      var requestToUse := RequestToUse(request, continuationToken);
      if requestToUse.None? {
        return Failure(InvalidContinuationToken);
      }
      var reply := service.SearchPost(requestToUse.value);
      if reply.Failure? {
        return Failure(ServiceFailure(reply.error));
      }
      var result := reply.value.value;
      var facets := GetFacets(result.facets, convertFacet);
      var page := SearchPagedResponse(reply.value.statusCode, MapList(result.results, convertHit),
        codec.serialize(serviceVersion, result.nextLink, result.nextPageParameters),
        facets, result.count, result.coverage);
      if continuationToken.None? {
        wrapper.SetFirstPageResponse(page);
      }
      r := Success(page);
    }

    /** The public `search(searchText, options, ...)`: a new page sequence
        over the built request, with its own empty first-page cache. */
    method Search(searchText: Option<string>, options: Option<SearchOptions>)
      returns (flux: SearchPagedFlux<RawHit, Hit, RawFacet, Facet>)
      ensures fresh(flux) && fresh(flux.firstPageResponseWrapper)
      ensures flux.client == this
      ensures flux.request == CreateSearchRequest(searchText, options, renderScoringParameter)
      ensures flux.firstPageResponseWrapper.firstPageResponse == None
    {
      var request := CreateSearchRequest(searchText, options, renderScoringParameter);
      var firstPageResponse := new SearchFirstPageResponseWrapper();
      flux := new SearchPagedFlux(this, request, firstPageResponse);
    }
  }

  /** A lazily fetched sequence of search pages: the first page is fetched
      without a token, each further page with the token of the page before. */
  class SearchPagedFlux<RawHit, Hit, RawFacet, Facet> {
    const client: SearchAsyncClient<RawHit, Hit, RawFacet, Facet>
    const request: SearchRequest
    const firstPageResponseWrapper: SearchFirstPageResponseWrapper<SearchPagedResponse<Hit, Facet>>

    constructor (client: SearchAsyncClient<RawHit, Hit, RawFacet, Facet>, request: SearchRequest,
                 firstPageResponseWrapper: SearchFirstPageResponseWrapper<SearchPagedResponse<Hit, Facet>>)
      ensures this.client == client && this.request == request
      ensures this.firstPageResponseWrapper == firstPageResponseWrapper
    {
      this.client := client;
      this.request := request;
      this.firstPageResponseWrapper := firstPageResponseWrapper;
    }

    /** One page: `func.apply(continuationToken)`. */
    method ByPage(continuationToken: Option<string>) returns (r: Result<SearchPagedResponse<Hit, Facet>, SearchError>)
      modifies firstPageResponseWrapper, client.service
      ensures continuationToken.None? && old(firstPageResponseWrapper.firstPageResponse).Some? ==>
                r == Success(old(firstPageResponseWrapper.firstPageResponse).value)
                && client.service.sent == old(client.service.sent)
      ensures continuationToken.None? && old(firstPageResponseWrapper.firstPageResponse).None? ==>
                && client.service.sent == old(client.service.sent) + [request]
                && client.AnswersReply(r, client.service.reply(|old(client.service.sent)|, request))
      ensures continuationToken.Some? && client.codec.deserialize(client.serviceVersion, continuationToken.value).None? ==>
                r == Failure(InvalidContinuationToken) && client.service.sent == old(client.service.sent)
      ensures continuationToken.Some? && client.codec.deserialize(client.serviceVersion, continuationToken.value).Some? ==>
                && client.service.sent == old(client.service.sent)
                     + [client.codec.deserialize(client.serviceVersion, continuationToken.value).value]
                && client.AnswersReply(r, client.service.reply(|old(client.service.sent)|,
                     client.codec.deserialize(client.serviceVersion, continuationToken.value).value))
                && firstPageResponseWrapper.firstPageResponse == old(firstPageResponseWrapper.firstPageResponse)
      ensures firstPageResponseWrapper.firstPageResponse ==
                if continuationToken.None? && r.Success? then Some(r.value)
                else old(firstPageResponseWrapper.firstPageResponse)
    {
      r := client.FetchSearchPage(request, continuationToken, firstPageResponseWrapper);
    }
  }

  /** Restarting a fresh sequence from its first page: when the first fetch
      succeeds, the two first-page fetches make one service call with the
      sequence's own request, and the second answers with the first's page. */
  method RestartFromFirstPage<RawHit, Hit, RawFacet, Facet>(flux: SearchPagedFlux<RawHit, Hit, RawFacet, Facet>)
    returns (first: Result<SearchPagedResponse<Hit, Facet>, SearchError>,
             again: Result<SearchPagedResponse<Hit, Facet>, SearchError>)
    requires flux.firstPageResponseWrapper.firstPageResponse == None
    modifies flux.firstPageResponseWrapper, flux.client.service
    ensures first.Success? ==> flux.client.service.sent == old(flux.client.service.sent) + [flux.request]
    ensures first.Success? ==> again == first
  {
    first := flux.ByPage(None);
    again := flux.ByPage(None);
  }
}

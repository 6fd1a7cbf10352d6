# Search client core: request builders, first-page-cached paging, batch indexing

A Dafny model of the client-side logic of the Azure Cognitive Search
asynchronous client (`SearchAsyncClient`) and of its mutable
`AutocompleteRequest` wire record. The HTTP transport, the continuation-token
codec and the row converters are parameters of the model.

- `common.dfy`: `Wrappers` (`Option` models a Java null; `Result`),
  `Primitives` (`Int32` for `Integer`, `Double` as an opaque 64-bit carrier),
  `Http` (`Response`, `ServiceError`) and `Streams.MapList`, which models
  `stream().map(f).collect(toList())`.
- `csv.dfy`: `String.join(",", list)` plus a reference splitter that undoes it
  on non-empty lists whose elements contain no comma, and the builders' "set
  the field only when the list is non-null" step.
- `autocomplete_request.dfy`: the `AutocompleteRequest` class. Its fields are
  all null at construction. Each fluent setter changes only its own field
  (`modifies this`field`) and returns `this`.
- `requests.dfy`: `createSearchRequest`, `createSuggestRequest` and
  `createAutoCompleteRequest`.
- `indexing.dfy`: `buildIndexBatch`, the index service, the 207
  classification of `indexDocumentsWithResponse` and the upload, merge,
  merge-or-upload and delete operations.
- `paging.dfy`: `getFacets`, the per-sequence `SearchFirstPageResponseWrapper`,
  the search service, the private `search(...)` page fetch and the public
  `search(...)` that creates a page sequence.

Each service is a class. Its `sent` field logs every request, so `|sent|` is
the number of calls made. Its `reply(n, request)` gives the answer to call
number `n`.

## Model

| member | source | states |
|---|---|---|
| `Streams.MapList` | sdk/search/azure-search-documents/src/main/java/com/azure/search/documents/SearchAsyncClient.java:492-496 | the stream map keeps length and order and converts element i of the input into element i of the output |
| `Csv.Join` | sdk/search/azure-search-documents/src/main/java/com/azure/search/documents/SearchAsyncClient.java:773 | `String.join(",", list)`: the result starts with the first element and ends with the last; splitting undoes it on non-empty comma-free lists (`Csv.SplitJoin`), and it undoes splitting on every string (`Csv.JoinSplit`) |
| `Csv.JoinIfPresent` | sdk/search/azure-search-documents/src/main/java/com/azure/search/documents/SearchAsyncClient.java:772-786 | a list field is absent exactly when the option list is null; an empty list becomes "" |
| `Csv.SplitJoin` | sdk/search/azure-search-documents/src/main/java/com/azure/search/documents/SearchAsyncClient.java:772-786 | splitting the comma join on commas gives back any non-empty list whose elements contain no comma |
| `Csv.JoinSplit` | sdk/search/azure-search-documents/src/main/java/com/azure/search/documents/SearchAsyncClient.java:772-786 | joining the comma-split pieces of any string gives the string back |
| `Csv.JoinEmptyAmbiguous` | sdk/search/azure-search-documents/src/main/java/com/azure/search/documents/SearchAsyncClient.java:772-774 | the empty list and the list [""] join to the same string, so the round trip needs a non-empty list |
| `Csv.JoinIfPresentCarries` | sdk/search/azure-search-documents/src/main/java/com/azure/search/documents/SearchAsyncClient.java:814-827 | every conditionally joined field carries its list: absent iff null, "" for empty, and the list back by splitting when it is non-empty and comma-free |
| `Requests.CreateSearchRequest` | sdk/search/azure-search-documents/src/main/java/com/azure/search/documents/SearchAsyncClient.java:752-790 | the built search request always holds the caller's search text |
| `Requests.SearchNullOptions` | sdk/search/azure-search-documents/src/main/java/com/azure/search/documents/SearchAsyncClient.java:752-755 | with null options only `searchText` is set; every other field is null |
| `Requests.SearchBlankOptions` | sdk/search/azure-search-documents/src/main/java/com/azure/search/documents/SearchAsyncClient.java:755-787 | options with nothing set build the same request as null options |
| `Requests.SearchListFields` | sdk/search/azure-search-documents/src/main/java/com/azure/search/documents/SearchAsyncClient.java:772-786 | highlightFields, searchFields, orderBy and select each carry their option list |
| `Requests.SearchScoringParameters` | sdk/search/azure-search-documents/src/main/java/com/azure/search/documents/SearchAsyncClient.java:756-760 | scoring parameters are rendered one by one in order; null stays null; facets are copied as a list, not joined |
| `Requests.CreateSuggestRequest` | sdk/search/azure-search-documents/src/main/java/com/azure/search/documents/SearchAsyncClient.java:800-831 | the built suggest request always holds the caller's search text and suggester name |
| `Requests.SuggestNullOptions` | sdk/search/azure-search-documents/src/main/java/com/azure/search/documents/SearchAsyncClient.java:802-806 | with null options only `searchText` and `suggesterName` are set |
| `Requests.SuggestBlankOptions` | sdk/search/azure-search-documents/src/main/java/com/azure/search/documents/SearchAsyncClient.java:806-828 | options with nothing set build the same request as null options |
| `Requests.SuggestListFields` | sdk/search/azure-search-documents/src/main/java/com/azure/search/documents/SearchAsyncClient.java:814-827 | searchFields, orderBy and select each carry their option list |
| `Requests.AutocompleteFieldsFor` | sdk/search/azure-search-documents/src/main/java/com/azure/search/documents/SearchAsyncClient.java:841-863 | the fields the autocomplete builder produces always hold the caller's search text and suggester name |
| `Requests.CreateAutoCompleteRequest` | sdk/search/azure-search-documents/src/main/java/com/azure/search/documents/SearchAsyncClient.java:841-863 | the builder returns a fresh `AutocompleteRequest` whose fields are exactly `AutocompleteFieldsFor` of its inputs |
| `Requests.AutocompleteNullOptions` | sdk/search/azure-search-documents/src/main/java/com/azure/search/documents/SearchAsyncClient.java:843-847 | with null options only `searchText` and `suggesterName` are set |
| `Requests.AutocompleteBlankOptions` | sdk/search/azure-search-documents/src/main/java/com/azure/search/documents/SearchAsyncClient.java:847-860 | options with nothing set build the same request as null options |
| `Requests.AutocompleteRequired` | sdk/search/azure-search-documents/src/main/java/com/azure/search/documents/implementation/models/AutocompleteRequest.java:18-83 | the two required properties are present in the built request exactly when the caller passed non-null text and suggester name |
| `Requests.AutocompleteSearchFields` | sdk/search/azure-search-documents/src/main/java/com/azure/search/documents/SearchAsyncClient.java:856-859 | the one joined autocomplete field, searchFields, carries its option list |
| `AutocompleteRequests.AutocompleteRequest.constructor` | sdk/search/azure-search-documents/src/main/java/com/azure/search/documents/implementation/models/AutocompleteRequest.java:14-90 | a new request has every field null, so neither required field is present |
| `AutocompleteRequests.AutocompleteRequest.SetSearchText` | sdk/search/azure-search-documents/src/main/java/com/azure/search/documents/implementation/models/AutocompleteRequest.java:107-110 | assigns only searchText, returns the same object, and the getter then yields the value |
| `AutocompleteRequests.AutocompleteRequest.SetAutocompleteMode` | sdk/search/azure-search-documents/src/main/java/com/azure/search/documents/implementation/models/AutocompleteRequest.java:129-132 | assigns only autocompleteMode, returns the same object, and the getter then yields the value |
| `AutocompleteRequests.AutocompleteRequest.SetFilter` | sdk/search/azure-search-documents/src/main/java/com/azure/search/documents/implementation/models/AutocompleteRequest.java:151-154 | assigns only filter, returns the same object, and the getter then yields the value |
| `AutocompleteRequests.AutocompleteRequest.SetUseFuzzyMatching` | sdk/search/azure-search-documents/src/main/java/com/azure/search/documents/implementation/models/AutocompleteRequest.java:177-180 | assigns only useFuzzyMatching, returns the same object, and the getter then yields the value |
| `AutocompleteRequests.AutocompleteRequest.SetHighlightPostTag` | sdk/search/azure-search-documents/src/main/java/com/azure/search/documents/implementation/models/AutocompleteRequest.java:199-202 | assigns only highlightPostTag, returns the same object, and the getter then yields the value |
| `AutocompleteRequests.AutocompleteRequest.SetHighlightPreTag` | sdk/search/azure-search-documents/src/main/java/com/azure/search/documents/implementation/models/AutocompleteRequest.java:221-224 | assigns only highlightPreTag, returns the same object, and the getter then yields the value |
| `AutocompleteRequests.AutocompleteRequest.SetMinimumCoverage` | sdk/search/azure-search-documents/src/main/java/com/azure/search/documents/implementation/models/AutocompleteRequest.java:245-248 | stores any coverage value as given (no 0..100 check), changing no other field |
| `AutocompleteRequests.AutocompleteRequest.SetSearchFields` | sdk/search/azure-search-documents/src/main/java/com/azure/search/documents/implementation/models/AutocompleteRequest.java:267-270 | assigns only searchFields, returns the same object, and the getter then yields the value |
| `AutocompleteRequests.AutocompleteRequest.SetSuggesterName` | sdk/search/azure-search-documents/src/main/java/com/azure/search/documents/implementation/models/AutocompleteRequest.java:289-292 | assigns only suggesterName, returns the same object, and the getter then yields the value |
| `AutocompleteRequests.AutocompleteRequest.SetTop` | sdk/search/azure-search-documents/src/main/java/com/azure/search/documents/implementation/models/AutocompleteRequest.java:311-314 | stores any Integer as given (no 1..100 check), changing no other field |
| `Indexing.BuildIndexBatch` | sdk/search/azure-search-documents/src/main/java/com/azure/search/documents/SearchAsyncClient.java:865-872 | one action per document, in input order, each tagged with the given type; the batch's documents are the input list |
| `Indexing.IndexDocumentsOutcome` | sdk/search/azure-search-documents/src/main/java/com/azure/search/documents/SearchAsyncClient.java:692-696 | IndexBatchException with all rows iff status is 207 and throwOnAnyError; otherwise a service reply is returned unchanged as success; transport errors pass through |
| `Indexing.NullOptionsAreDefault` | sdk/search/azure-search-documents/src/main/java/com/azure/search/documents/SearchAsyncClient.java:685-696 | null options classify every reply as the default options do |
| `Indexing.MultiStatusWithoutThrow` | sdk/search/azure-search-documents/src/main/java/com/azure/search/documents/SearchAsyncClient.java:694-696 | a 207 reply is a success with the same rows when throwOnAnyError is false, and an IndexBatchException with those rows when it is true |
| `Indexing.IndexService.Index` | sdk/search/azure-search-documents/src/main/java/com/azure/search/documents/SearchAsyncClient.java:689-692 | one call: the batch is logged and the reply for this call number is returned |
| `Indexing.IndexDocumentsWithResponse` | sdk/search/azure-search-documents/src/main/java/com/azure/search/documents/SearchAsyncClient.java:682-700 | exactly one service call with the batch as given, answered by the 207 classification of its reply |
| `Indexing.UploadDocumentsWithResponse` | sdk/search/azure-search-documents/src/main/java/com/azure/search/documents/SearchAsyncClient.java:196-200 | one call whose batch holds every document as an UPLOAD action, in order |
| `Indexing.MergeDocumentsWithResponse` | sdk/search/azure-search-documents/src/main/java/com/azure/search/documents/SearchAsyncClient.java:256-260 | one call whose batch holds every document as a MERGE action, in order |
| `Indexing.MergeOrUploadDocumentsWithResponse` | sdk/search/azure-search-documents/src/main/java/com/azure/search/documents/SearchAsyncClient.java:318-322 | one call whose batch holds every document as a MERGE_OR_UPLOAD action, in order |
| `Indexing.DeleteDocumentsWithResponse` | sdk/search/azure-search-documents/src/main/java/com/azure/search/documents/SearchAsyncClient.java:364-368 | one call whose batch holds every document as a DELETE action, in order |
| `Paging.GetFacets` | sdk/search/azure-search-documents/src/main/java/com/azure/search/documents/SearchAsyncClient.java:503-515 | null facets give null; otherwise the same key set, each list converted element-wise with the same length and order |
| `Paging.SearchFirstPageResponseWrapper.constructor` | sdk/search/azure-search-documents/src/main/java/com/azure/search/documents/SearchAsyncClient.java:449 | a new first-page cache is empty |
| `Paging.SearchFirstPageResponseWrapper.SetFirstPageResponse` | sdk/search/azure-search-documents/src/main/java/com/azure/search/documents/SearchAsyncClient.java:485-487 | the cache then holds the given page |
| `Paging.SearchService.SearchPost` | sdk/search/azure-search-documents/src/main/java/com/azure/search/documents/SearchAsyncClient.java:475-477 | one call: the request is logged and the reply for this call number is returned |
| `Paging.SearchAsyncClient.FetchSearchPage` | sdk/search/azure-search-documents/src/main/java/com/azure/search/documents/SearchAsyncClient.java:466-490 | reads the cache with `getFirstPageResponse`: no token and a cached page gives the cache and no call; no token and an empty cache makes one call with the sequence's request; a token the codec rejects gives an error and no call; an accepted token makes one call with the decoded request and leaves the cache alone; every call's page is built from its reply, and only a successful token-less page is cached |
| `Paging.SearchAsyncClient.Search` | sdk/search/azure-search-documents/src/main/java/com/azure/search/documents/SearchAsyncClient.java:445-453 | each new sequence gets the built request and its own fresh, empty first-page cache |
| `Paging.SearchPagedFlux.ByPage` | sdk/search/azure-search-documents/src/main/java/com/azure/search/documents/SearchAsyncClient.java:450-452 | a page of a sequence, over that sequence's request and cache: the same cases as the page fetch (cached first page, one call with the request or the decoded token, rejected token) |
| `Paging.RestartFromFirstPage` | sdk/search/azure-search-documents/src/main/java/com/azure/search/documents/SearchAsyncClient.java:447-452 | on a fresh sequence, when the first fetch succeeds, two first-page fetches make one service call and the second returns the first's page |

## Left out

- The HTTP pipeline, `withContext`, `Context`, the Reactor `Mono` and
  `PagedFlux` plumbing, and `requestOptions`: these are asynchronous I/O.
  Each service call is one synchronous method on a service object.
- `SearchContinuationToken.serializeToken` / `deserializeToken`: their bodies
  are not part of this model, so they are the two functions of a
  `TokenCodec` parameter. A token the codec rejects gives
  `InvalidContinuationToken` with no call.
- `SearchResultConverter`, `FacetResultConverter` and
  `ScoringParameter.toString` are function parameters of the client.
  `SearchModeConverter`, `QueryTypeConverter` and `AutocompleteModeConverter`
  are not part of this model; the options' enum values pass through unchanged.
  `IndexDocumentsResultConverter`, `MappingUtils.mappingIndexDocumentResultResponse`
  and `MappingUtils.exceptionMapper` are also not part of this model: rows and
  errors pass through unchanged.
- `SearchRequest.java` and `SuggestRequest.java` are not part of this model.
  Their records are values, and their builders are functions, so the in-place
  setter chain on those two objects is not captured. `AutocompleteRequest`
  keeps its in-place form.
- `Requests.CreateAutoCompleteRequest`: the order of the setter calls (the
  two required fields first) appears only in its body; its contract states
  the final field values.
- `IndexDocumentsOptions.java` is not part of this model. Its default
  `throwOnAnyError = true` is the documented default.
- `SuggestOptionsHandler.ensureSuggestOptions` is not part of this model; the
  suggest builder is modelled on the options it receives.
- Suggest and autocomplete paging (`suggest(...)`, `autocomplete(...)`,
  `getSuggestResults`, `mappingAutocompleteResponse`): each is a single-page
  sequence with one service call and no cache or token.
- `getDocument`, `getDocumentWithResponse` and the Jackson `MAPPER`: these
  deserialize by reflection into a caller's class.
- `getDocumentCount`, `getIndexName`, `getEndpoint`, `getHttpPipeline` and the
  client constructor's pipeline wiring: these are plain accessors or
  transport setup.
- The overloads without options and the value-only variants (`uploadDocuments`
  and the others) call the modelled operations with null options and drop the
  status code. They are not written out separately.
- Concurrent use of one first-page cache: the model is sequential.
- `minimumCoverage` and coverage values are carried as opaque 64-bit
  patterns; no arithmetic is done on them.
- The generated DTOs `ImageAnalysisSkill`, `AzureActiveDirectoryApplicationCredentials`,
  `IndexingSchedule`, `CognitiveServicesAccountKey`, `MagnitudeScoringFunction`
  and `AutocompleteItem` have no behaviour and are not modelled.
- The code does not inspect per-row results on a non-207 reply, so a
  success may hold failed rows. Non-2xx statuses become errors inside the REST
  client, so here they are the service's `Failure` replies.
- `IndexBatchBaseConverter.map(batch)` (line 690) is not part of this model;
  the batch is sent as built.
- Java `null` elements inside lists are not modelled: list elements are
  plain strings, documents and parameters. In the code `String.join` writes
  a null element as `"null"` (lines 773-785, 816-826, 858),
  `ScoringParameter::toString` on a null parameter throws (line 757), and a
  null document iterable throws in `forEach` (line 868). On the reply side,
  a null `results` list throws in `getSearchResults` (line 493) and a null
  facet list throws at `values.stream()` in `getFacets` (line 511); either
  makes the page fetch fail with nothing cached. A reply's row and facet
  lists are sequences here, so they cannot be null.
- The `catch (RuntimeException ex)` path of `indexDocumentsWithResponse`
  (lines 697-699), which turns an exception raised while building the call
  into a failed `Mono`: nothing in the modelled body can throw, so the model
  has no such path.

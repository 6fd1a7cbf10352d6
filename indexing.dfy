/** Document indexing: homogeneous batches built from a document list, the
    call to the index service, and the classification of its reply. A
    multi-status reply (207) means some actions failed while others already
    changed the index; it is raised as `IndexBatchException`, carrying every
    per-action result, unless the caller turned `throwOnAnyError` off. */
module Indexing {
  import opened Wrappers
  import opened Http
  import opened Streams

  /** The Multi-Status HTTP response code. */
  const MultiStatusCode: int := 207

  datatype IndexActionType = Upload | Merge | MergeOrUpload | Delete

  /** One action on one caller document. */
  datatype IndexAction<T> = IndexAction(actionType: IndexActionType, document: T)

  /** The ordered actions sent in one request; result row i answers action i. */
  datatype IndexDocumentsBatch<T> = IndexDocumentsBatch(actions: seq<IndexAction<T>>)

  /** The outcome of one action as the service reports it. */
  datatype IndexingResult = IndexingResult(key: string, errorMessage: Option<string>, succeeded: bool,
                                           statusCode: int)

  datatype IndexDocumentsResult = IndexDocumentsResult(results: seq<IndexingResult>)

  datatype IndexDocumentsOptions = IndexDocumentsOptions(throwOnAnyError: bool)

  /** `new IndexDocumentsOptions()`: throw on any error. */
  const DefaultIndexDocumentsOptions := IndexDocumentsOptions(true)

  /** How an indexing call fails: the partial-failure exception with all the
      per-action results, or the transport's own error. */
  datatype IndexError =
    | IndexBatchException(indexingResults: IndexDocumentsResult)
    | ServiceFailure(cause: ServiceError)

  /** The documents of a batch, in action order. */
  function BatchDocuments<T>(batch: IndexDocumentsBatch<T>): seq<T>
  {
    MapList(batch.actions, (a: IndexAction<T>) => a.document)
  }

  /** `batch` holds one action of type `actionType` per document, in order. */
  ghost predicate IsBatchOf<T>(batch: IndexDocumentsBatch<T>, documents: seq<T>, actionType: IndexActionType)
  {
    && |batch.actions| == |documents|
    && forall i :: 0 <= i < |documents| ==> batch.actions[i] == IndexAction(actionType, documents[i])
  }

  /** `buildIndexBatch`: appends one action per document to a fresh batch. */
  method BuildIndexBatch<T>(documents: seq<T>, actionType: IndexActionType) returns (batch: IndexDocumentsBatch<T>)
    ensures IsBatchOf(batch, documents, actionType)
    ensures BatchDocuments(batch) == documents
    ensures forall i :: 0 <= i < |batch.actions| ==> batch.actions[i].actionType == actionType
  {
    var actions: seq<IndexAction<T>> := [];
    for i := 0 to |documents|
      invariant |actions| == i
      invariant forall j :: 0 <= j < i ==> actions[j] == IndexAction(actionType, documents[j])
    {
      actions := actions + [IndexAction(actionType, documents[i])];
    }
    batch := IndexDocumentsBatch(actions);
    assert BatchDocuments(batch) == documents by {
      var docs := BatchDocuments(batch);
      assert |docs| == |documents|;
      forall i | 0 <= i < |documents| ensures docs[i] == documents[i] {
        assert docs[i] == batch.actions[i].document;
      }
    }
  }

  /** The options actually used: null options mean the defaults. */
  function EffectiveOptions(options: Option<IndexDocumentsOptions>): IndexDocumentsOptions
  {
    if options.None? then DefaultIndexDocumentsOptions else options.value
  }

  /** The reply of `indexDocumentsWithResponse` to the service's reply. */
  function IndexDocumentsOutcome(reply: Result<Response<IndexDocumentsResult>, ServiceError>,
                                 options: Option<IndexDocumentsOptions>)
    : (r: Result<Response<IndexDocumentsResult>, IndexError>)
    // a partial failure is raised exactly on 207 with throwOnAnyError, and it carries every row
    ensures (r.Failure? && r.error.IndexBatchException?) <==>
            (reply.Success? && reply.value.statusCode == MultiStatusCode && (options.None? || options.value.throwOnAnyError))
    ensures r.Failure? && r.error.IndexBatchException? ==> r.error.indexingResults == reply.value.value
    // every other reply the service gave is a success with the status and rows unchanged
    ensures r.Success? <==>
            (reply.Success? && !(reply.value.statusCode == MultiStatusCode && (options.None? || options.value.throwOnAnyError)))
    ensures r.Success? ==> r.value == reply.value
    // transport errors pass through
    ensures reply.Failure? ==> r == Failure(ServiceFailure(reply.error))
  {
    var documentsOptions := EffectiveOptions(options);
    match reply
    case Failure(e) => Failure(ServiceFailure(e))
    case Success(response) =>
      if response.statusCode == MultiStatusCode && documentsOptions.throwOnAnyError
      then Failure(IndexBatchException(response.value))
      else Success(response)
  }

  /** Null options behave as the default options, which throw on 207. */
  lemma NullOptionsAreDefault(reply: Result<Response<IndexDocumentsResult>, ServiceError>)
    ensures IndexDocumentsOutcome(reply, None) == IndexDocumentsOutcome(reply, Some(DefaultIndexDocumentsOptions))
  {
  }

  /** A 207 reply with `throwOnAnyError` off is the same rows as a plain success. */
  lemma MultiStatusWithoutThrow(rows: IndexDocumentsResult)
    ensures IndexDocumentsOutcome(Success(Response(MultiStatusCode, rows)), Some(IndexDocumentsOptions(false)))
         == Success(Response(MultiStatusCode, rows))
    ensures IndexDocumentsOutcome(Success(Response(MultiStatusCode, rows)), Some(IndexDocumentsOptions(true)))
         == Failure(IndexBatchException(rows))
  {
  }

  /** The index endpoint of the service. Its answer to call number `n` with
      a batch is `reply(n, batch)`; `sent` records every batch sent, so its
      length is the number of calls made. */
  class IndexService<T> {
    var sent: seq<IndexDocumentsBatch<T>>
    const reply: (nat, IndexDocumentsBatch<T>) -> Result<Response<IndexDocumentsResult>, ServiceError>

    constructor (reply: (nat, IndexDocumentsBatch<T>) -> Result<Response<IndexDocumentsResult>, ServiceError>)
      ensures sent == [] && this.reply == reply
    {
      sent := [];
      this.reply := reply;
    }

    method Index(batch: IndexDocumentsBatch<T>) returns (response: Result<Response<IndexDocumentsResult>, ServiceError>)
      modifies this`sent
      ensures sent == old(sent) + [batch]
      ensures response == reply(|old(sent)|, batch)
    {
      response := reply(|sent|, batch);
      sent := sent + [batch];
    }
  }

  /** `indexDocumentsWithResponse`: one call with the batch as given, then
      the 207 classification. */
  method IndexDocumentsWithResponse<T>(service: IndexService<T>, batch: IndexDocumentsBatch<T>,
                                       options: Option<IndexDocumentsOptions>)
    returns (r: Result<Response<IndexDocumentsResult>, IndexError>)
    modifies service
    ensures service.sent == old(service.sent) + [batch]
    ensures r == IndexDocumentsOutcome(service.reply(|old(service.sent)|, batch), options)
  {
    var reply := service.Index(batch);
    r := IndexDocumentsOutcome(reply, options);
  }

  /** Shared body of the four homogeneous operations below. */
  method IndexAllWith<T>(service: IndexService<T>, documents: seq<T>, actionType: IndexActionType,
                         options: Option<IndexDocumentsOptions>)
    returns (r: Result<Response<IndexDocumentsResult>, IndexError>)
    modifies service
    ensures |service.sent| == |old(service.sent)| + 1 && service.sent[..|old(service.sent)|] == old(service.sent)
    ensures IsBatchOf(service.sent[|old(service.sent)|], documents, actionType)
    ensures r == IndexDocumentsOutcome(service.reply(|old(service.sent)|, service.sent[|old(service.sent)|]), options)
  {
    var batch := BuildIndexBatch(documents, actionType);
    r := IndexDocumentsWithResponse(service, batch, options);
  }

  /** `uploadDocumentsWithResponse`: every document as an UPLOAD action. */
  method UploadDocumentsWithResponse<T>(service: IndexService<T>, documents: seq<T>,
                                        options: Option<IndexDocumentsOptions>)
    returns (r: Result<Response<IndexDocumentsResult>, IndexError>)
    modifies service
    ensures |service.sent| == |old(service.sent)| + 1 && service.sent[..|old(service.sent)|] == old(service.sent)
    ensures IsBatchOf(service.sent[|old(service.sent)|], documents, Upload)
    ensures r == IndexDocumentsOutcome(service.reply(|old(service.sent)|, service.sent[|old(service.sent)|]), options)
  {
    r := IndexAllWith(service, documents, Upload, options);
  }

  /** `mergeDocumentsWithResponse`: every document as a MERGE action. */
  method MergeDocumentsWithResponse<T>(service: IndexService<T>, documents: seq<T>,
                                       options: Option<IndexDocumentsOptions>)
    returns (r: Result<Response<IndexDocumentsResult>, IndexError>)
    modifies service
    ensures |service.sent| == |old(service.sent)| + 1 && service.sent[..|old(service.sent)|] == old(service.sent)
    ensures IsBatchOf(service.sent[|old(service.sent)|], documents, Merge)
    ensures r == IndexDocumentsOutcome(service.reply(|old(service.sent)|, service.sent[|old(service.sent)|]), options)
  {
    r := IndexAllWith(service, documents, Merge, options);
  }

  /** `mergeOrUploadDocumentsWithResponse`: every document as a MERGE_OR_UPLOAD action. */
  method MergeOrUploadDocumentsWithResponse<T>(service: IndexService<T>, documents: seq<T>,
                                               options: Option<IndexDocumentsOptions>)
    returns (r: Result<Response<IndexDocumentsResult>, IndexError>)
    modifies service
    ensures |service.sent| == |old(service.sent)| + 1 && service.sent[..|old(service.sent)|] == old(service.sent)
    ensures IsBatchOf(service.sent[|old(service.sent)|], documents, MergeOrUpload)
    ensures r == IndexDocumentsOutcome(service.reply(|old(service.sent)|, service.sent[|old(service.sent)|]), options)
  {
    r := IndexAllWith(service, documents, MergeOrUpload, options);
  }

  /** `deleteDocumentsWithResponse`: every document as a DELETE action. */
  method DeleteDocumentsWithResponse<T>(service: IndexService<T>, documents: seq<T>,
                                        options: Option<IndexDocumentsOptions>)
    returns (r: Result<Response<IndexDocumentsResult>, IndexError>)
    modifies service
    ensures |service.sent| == |old(service.sent)| + 1 && service.sent[..|old(service.sent)|] == old(service.sent)
    ensures IsBatchOf(service.sent[|old(service.sent)|], documents, Delete)
    ensures r == IndexDocumentsOutcome(service.reply(|old(service.sent)|, service.sent[|old(service.sent)|]), options)
  {
    r := IndexAllWith(service, documents, Delete, options);
  }
}

/**
 * What `sync_ean_availability` promises, for any API answer and any
 * repository: the fetch is the only fetch and comes first, nothing is saved
 * when the answer is missing or empty or the fetch raised, and the items are
 * saved once each, in order, with the request they were fetched for, up to
 * the first save that raises.
 */
module EanAvailabilityServiceProperties {
  import opened Wrappers
  import opened Exceptions
  import opened StockDtos
  import opened SaveLoop
  import opened EanAvailabilityService

  /**
   * The sync only appends to the call log: first the fetch, for the request
   * and EANs given, then saves, each with that same request.
   */
  lemma FetchedOnceFirst<Item>(save: SaveItem<Item>, log: seq<Call<Item>>, request: SupplierContext, eans: seq<string>,
                               fetched: Result<Option<AvailabilityResponse<Item>>, Error>)
    ensures var s := SyncOf(save, log, request, eans, fetched);
      |s.calls| > |log| && s.calls[..|log|] == log && s.calls[|log|] == FetchedAvailability(request, eans) &&
      forall k :: |log| < k < |s.calls| ==> s.calls[k].SavedItem? && s.calls[k].request == request
  {
    var afterFetch := log + [FetchedAvailability(request, eans)];
    if fetched.Success? && fetched.value.Some? && fetched.value.value.availabilityItems != [] {
      SaveEachMeaning(SaveFor(save, request), CallFor(request), Run(Success(()), afterFetch), fetched.value.value.availabilityItems);
    }
  }

  /** An API exception ends the sync with that exception, before any save. */
  lemma ApiErrorPropagates<Item>(save: SaveItem<Item>, log: seq<Call<Item>>, request: SupplierContext, eans: seq<string>, e: Error)
    ensures SyncOf(save, log, request, eans, Failure(e)) == Run(Failure(e), log + [FetchedAvailability(request, eans)])
  {
  }

  /** A missing answer or one without items completes the sync without any save. */
  lemma NoItemsNoSaves<Item>(save: SaveItem<Item>, log: seq<Call<Item>>, request: SupplierContext, eans: seq<string>,
                             answer: Option<AvailabilityResponse<Item>>)
    requires answer.None? || answer.value.availabilityItems == []
    ensures SyncOf(save, log, request, eans, Success(answer)) == Run(Success(()), log + [FetchedAvailability(request, eans)])
  {
  }

  /**
   * With items fetched, they are saved for a prefix of them, once each, in
   * order and with the same request. The sync completes exactly when every
   * item's save completes, and then every item was saved; otherwise the
   * exception of the first save that raised ends it and no later item is
   * saved.
   */
  lemma ItemsSavedInOrder<Item>(save: SaveItem<Item>, log: seq<Call<Item>>, request: SupplierContext, eans: seq<string>,
                                items: seq<Item>)
    requires items != []
    ensures var s := SyncOf(save, log, request, eans, Success(Some(AvailabilityResponse(items))));
      var m := |s.calls| - |log| - 1;
      0 < m <= |items| &&
      s.calls == log + [FetchedAvailability(request, eans)] + Calls(CallFor(request), items[..m]) &&
      (s.result.Success? <==> forall k :: 0 <= k < |items| ==> save(request, items[k]).Success?) &&
      (s.result.Success? ==> m == |items|) &&
      (s.result.Failure? ==>
        (forall k :: 0 <= k < m - 1 ==> save(request, items[k]).Success?) && s.result == save(request, items[m - 1]))
  {
    SaveEachMeaning(SaveFor(save, request), CallFor(request), Run(Success(()), log + [FetchedAvailability(request, eans)]), items);
  }
}

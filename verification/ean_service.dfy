/**
 * EANAvailabilityApplicationService: `sync_ean_availability` asks the
 * availability API once for the EANs of one supplier context and, unless
 * the answer is missing or holds no items, saves the items one by one with
 * that same context; `get_ean_availabilities_by_supplier` hands the
 * repository's answer back unchanged. Exceptions are not caught.
 *
 * The API client and the repository are collaborators whose code is not
 * part of this model: their answers are fixed functions of the arguments
 * they are called with, and the calls made are recorded, in order, in the
 * ghost log `calls`. The request DTO is the supplier context; the item DTO
 * is left abstract, as the type parameter `Item`.
 */
module EanAvailabilityService {
  import opened Wrappers
  import opened Exceptions
  import opened StockDtos
  import opened SeqFacts
  import opened SaveLoop

  /** The API's answer: its `availability_items`. */
  datatype AvailabilityResponse<Item> = AvailabilityResponse(availabilityItems: seq<Item>)

  /** A call the service makes to one of its collaborators. */
  datatype Call<Item> =
    | FetchedAvailability(request: SupplierContext, eans: seq<string>)
    | SavedItem(request: SupplierContext, item: Item)
    | ListedBySupplier(supplierGln: string)

  /** The repository's `save_ean_availability_item`. */
  type SaveItem<!Item> = (SupplierContext, Item) -> Result<(), Error>

  /** The loop's save of one item: the repository's answer for it with `request`. */
  function SaveFor<Item>(save: SaveItem<Item>, request: SupplierContext): Item -> Result<(), Error> {
    item => save(request, item)
  }

  /** The loop's log entry for one item: its save with `request`. */
  function CallFor<Item>(request: SupplierContext): Item -> Call<Item> {
    item => SavedItem(request, item)
  }

  /**
   * The sync, after the call log `log`, once the API has answered
   * `fetched`: the early return on an exception, a missing answer or no
   * items, then the save loop.
   */
  function SyncOf<Item>(save: SaveItem<Item>, log: seq<Call<Item>>, request: SupplierContext, eans: seq<string>,
                        fetched: Result<Option<AvailabilityResponse<Item>>, Error>): Run<Call<Item>> {
    var afterFetch := log + [FetchedAvailability(request, eans)];
    match fetched
    case Failure(e) => Run(Failure(e), afterFetch)
    case Success(None) => Run(Success(()), afterFetch)
    case Success(Some(response)) =>
      if response.availabilityItems == [] then Run(Success(()), afterFetch)
      else SaveEach(SaveFor(save, request), CallFor(request), Run(Success(()), afterFetch), response.availabilityItems)
  }

  class EanAvailabilityApplicationService<Item> {
    /** `api_client.fetch_ean_availability`: an answer, None, or the exception it raises. */
    const fetchAvailability: (SupplierContext, seq<string>) -> Result<Option<AvailabilityResponse<Item>>, Error>
    /** `availability_repo.save_ean_availability_item`. */
    const saveItem: SaveItem<Item>
    /** `availability_repo.get_ean_availabilities_by_supplier`. */
    const listBySupplier: string -> Result<seq<AvailabilityResponse<Item>>, Error>
    /** The collaborator calls made by this service, in order. */
    ghost var calls: seq<Call<Item>>

    constructor (fetchAvailability: (SupplierContext, seq<string>) -> Result<Option<AvailabilityResponse<Item>>, Error>,
                 saveItem: SaveItem<Item>, listBySupplier: string -> Result<seq<AvailabilityResponse<Item>>, Error>)
      ensures this.fetchAvailability == fetchAvailability && this.saveItem == saveItem
      ensures this.listBySupplier == listBySupplier && calls == []
    {
      this.fetchAvailability := fetchAvailability;
      this.saveItem := saveItem;
      this.listBySupplier := listBySupplier;
      calls := [];
    }

    /** `sync_ean_availability(request, eans)` after the call log `log`. */
    function SyncSpec(log: seq<Call<Item>>, request: SupplierContext, eans: seq<string>): Run<Call<Item>> {
      SyncOf(saveItem, log, request, eans, fetchAvailability(request, eans))
    }

    /** `sync_ean_availability`. */
    method SyncEanAvailability(request: SupplierContext, eans: seq<string>) returns (r: Result<(), Error>)
      modifies this`calls
      ensures r == SyncSpec(old(calls), request, eans).result
      ensures calls == SyncSpec(old(calls), request, eans).calls
    {
      var response := fetchAvailability(request, eans);
      calls := calls + [FetchedAvailability(request, eans)];
      if response.Failure? {
        return Failure(response.error);
      }
      if response.value.None? || response.value.value.availabilityItems == [] {
        return Success(());
      }
      var items := response.value.value.availabilityItems;
      ghost var save := SaveFor(saveItem, request);
      ghost var s0 := Run(Success(()), calls);
      ghost var s := s0;
      var last: Result<(), Error> := Success(());
      var i := 0;
      while i < |items|
        invariant 0 <= i <= |items|
        invariant s == SaveEach(save, CallFor(request), s0, items[..i])
        invariant s.result == last && last.Success? && calls == s.calls
      {
        SaveEachSnoc(save, CallFor(request), s0, items, i);
        var saved := saveItem(request, items[i]);
        calls := calls + [SavedItem(request, items[i])];
        s := Step(save, CallFor(request), s, items[i]);
        if saved.Failure? {
          SaveEachSticky(save, CallFor(request), s0, items, i + 1);
          return saved;
        }
        last := saved;
        i := i + 1;
      }
      Whole(items);
      r := last;
    }

    /** `get_ean_availabilities_by_supplier`: the repository's answer for the GLN, unchanged. */
    method GetEanAvailabilitiesBySupplier(supplierGln: string) returns (r: Result<seq<AvailabilityResponse<Item>>, Error>)
      modifies this`calls
      ensures r == listBySupplier(supplierGln)
      ensures calls == old(calls) + [ListedBySupplier(supplierGln)]
    {
      r := listBySupplier(supplierGln);
      calls := calls + [ListedBySupplier(supplierGln)];
    }
  }
}

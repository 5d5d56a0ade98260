/**
 * The legacy `GtinStockApplicationService`: for every record of the
 * suppliers configuration it builds a supplier context from the upper-case
 * keys, fetches the supplier's stock with the legacy client call and saves
 * the items one by one. A bad record aborts the whole run; a failing fetch
 * or save only ends the current supplier.
 */
module GtinStockService {
  import opened Wrappers
  import opened JsonModel
  import opened Exceptions
  import opened StockDtos
  import opened GlobalStockClient
  import opened GtinStockStore
  import opened SupplierConfig
  import opened SeqFacts

  /** A call the service makes to one of its collaborators. */
  datatype Call =
    | Fetched(context: SupplierContext)
    | Saved(context: SupplierContext, item: GtinStockItem)

  /**
   * Everything a sync can change: the repository's table and statement
   * count, the client's counter and effects, and the calls made so far.
   */
  datatype World = World(
    rows: map<StockKey, StockRow>,
    statements: nat,
    counter: int,
    effects: seq<Effect>,
    calls: seq<Call>)

  /** The outcome of a stretch of the sync: completed or the exception that escaped, and the world after it. */
  datatype Run = Run(result: Result<(), Error>, world: World)

  /**
   * The supplier context of one configuration record: `supplier_info[KEY]`
   * for SUPPLIER_ID, SUPPLIER_GLN and SUPPLIER_NAME, in that order, with the
   * retailer fields from the settings. A missing key raises KeyError; a record
   * that is not a dict cannot be indexed by a string and raises TypeError.
   */
  function ServiceContext(record: Json, settings: Settings): (r: Result<SupplierContext, Error>)
    ensures r.Success? <==>
      record.JObj? && Lookup(record.fields, "SUPPLIER_ID").Some? &&
      Lookup(record.fields, "SUPPLIER_GLN").Some? && Lookup(record.fields, "SUPPLIER_NAME").Some?
    ensures r.Success? ==>
      r.value.retailerId == settings.retailerId && r.value.retailerGln == settings.retailerGln &&
      Lookup(record.fields, "SUPPLIER_ID") == Some(r.value.supplierId) &&
      Lookup(record.fields, "SUPPLIER_GLN") == Some(r.value.supplierGln) &&
      Lookup(record.fields, "SUPPLIER_NAME") == Some(r.value.supplierName)
    ensures r.Failure? ==> r.error.Builtin? && (r.error.kind == KeyError <==> record.JObj?)
  {
    match record
    case JObj(fields) =>
      if Lookup(fields, "SUPPLIER_ID").None? then Failure(Builtin(KeyError, "'SUPPLIER_ID'"))
      else if Lookup(fields, "SUPPLIER_GLN").None? then Failure(Builtin(KeyError, "'SUPPLIER_GLN'"))
      else if Lookup(fields, "SUPPLIER_NAME").None? then Failure(Builtin(KeyError, "'SUPPLIER_NAME'"))
      else Success(SupplierContext(settings.retailerId, settings.retailerGln,
                                   Lookup(fields, "SUPPLIER_ID").value, Lookup(fields, "SUPPLIER_GLN").value,
                                   Lookup(fields, "SUPPLIER_NAME").value))
    case JArr(_) => Failure(Builtin(TypeError, "list indices must be integers or slices, not str"))
    case JStr(_) => Failure(Builtin(TypeError, "string indices must be integers, not 'str'"))
    case _ => Failure(Builtin(TypeError, "'" + TypeName(record) + "' object is not subscriptable"))
  }

  /** The save calls for `items`, in order, all with `context`. */
  function SaveCalls(context: SupplierContext, items: seq<GtinStockItem>): (cs: seq<Call>)
    ensures |cs| == |items|
    decreases |items|
  {
    if items == [] then []
    else SaveCalls(context, items[..|items| - 1]) + [Saved(context, items[|items| - 1])]
  }

  /** The contexts passed to the fetch calls, in order. */
  function Fetches(cs: seq<Call>): seq<SupplierContext>
    decreases |cs|
  {
    if cs == [] then []
    else Fetches(cs[..|cs| - 1]) + (if cs[|cs| - 1].Fetched? then [cs[|cs| - 1].context] else [])
  }

  /** The contexts of `records`, for records that all have one. */
  function Contexts(records: seq<Json>, settings: Settings): seq<SupplierContext>
    requires forall k :: 0 <= k < |records| ==> ServiceContext(records[k], settings).Success?
    decreases |records|
  {
    if records == [] then []
    else Contexts(records[..|records| - 1], settings) + [ServiceContext(records[|records| - 1], settings).value]
  }

  class GtinStockApplicationService {
    const stockRepo: GtinStockRepository
    const apiClient: GlobalStockApiClient
    /** The collaborator calls made by this service, in order. */
    ghost var calls: seq<Call>

    constructor (stockRepo: GtinStockRepository, apiClient: GlobalStockApiClient)
      ensures this.stockRepo == stockRepo && this.apiClient == apiClient && calls == []
    {
      this.stockRepo := stockRepo;
      this.apiClient := apiClient;
      calls := [];
    }

    ghost function Now(): World
      reads this, stockRepo, apiClient
    {
      World(stockRepo.rows, stockRepo.statements, apiClient.processedCount, apiClient.effects, calls)
    }

    /** The world after `fetch_gtin_stock_data(context)`. */
    function AfterFetch(w: World, context: SupplierContext): World {
      var f := apiClient.FetchSpec(context, LegacyBatchSize, false);
      w.(counter := if f.counter.Some? then f.counter.value else w.counter,
         effects := w.effects + f.effects,
         calls := w.calls + [Fetched(context)])
    }

    /** One more item saved after `s`, unless a save already raised. */
    function SaveStep(s: Run, context: SupplierContext, item: GtinStockItem): Run {
      if s.result.Failure? then s
      else
        var w := s.world;
        Run(stockRepo.SaveResult(context, item, w.statements),
            w.(rows := stockRepo.SavedRows(w.rows, context, item, w.statements),
               statements := w.statements + 1,
               calls := w.calls + [Saved(context, item)]))
    }

    /** The inner loop: `save_gtin_stock_item` for each item in order, up to the first exception. */
    function SaveItems(w: World, context: SupplierContext, items: seq<GtinStockItem>): Run
      decreases |items|
    {
      if items == [] then Run(Success(()), w)
      else SaveStep(SaveItems(w, context, items[..|items| - 1]), context, items[|items| - 1])
    }

    /**
     * One supplier inside the `try`: fetch, skip an empty response, save the
     * items; whatever the fetch or a save raises is caught and ends the supplier.
     */
    function SupplierSync(w: World, context: SupplierContext): World {
      var f := apiClient.FetchSpec(context, LegacyBatchSize, false);
      var fetched := AfterFetch(w, context);
      if f.result.Failure? || f.result.value.stockItems == [] then fetched
      else SaveItems(fetched, context, f.result.value.stockItems).world
    }

    /** One more record of the outer loop, unless the run already ended. */
    function SyncStep(s: Run, record: Json, settings: Settings): Run {
      if s.result.Failure? then s
      else match ServiceContext(record, settings)
        case Failure(err) => Run(Failure(err), s.world)
        case Success(context) => Run(Success(()), SupplierSync(s.world, context))
    }

    /** The outer loop over the records. */
    function SyncRecords(w: World, records: seq<Json>, settings: Settings): Run
      decreases |records|
    {
      if records == [] then Run(Success(()), w)
      else SyncStep(SyncRecords(w, records[..|records| - 1], settings), records[|records| - 1], settings)
    }

    /** `sync_all_supplier_stock`: the file is read and decoded, then its elements are the records. */
    function SyncSpec(path: string, file: ConfigFile, settings: Settings, w: World): Run {
      match file
      case Missing => Run(Failure(App(NewApplicationError("Suppliers configuration file not found at " + path, None))), w)
      case Undecodable(_) => Run(Failure(App(NewApplicationError("Error decoding suppliers configuration from " + path, None))), w)
      case Parsed(document) =>
        match Elements(document)
        case None => Run(Failure(Builtin(TypeError, "'" + TypeName(document) + "' object is not iterable")), w)
        case Some(records) => SyncRecords(w, records, settings)
    }

    lemma SyncRecordsSnoc(w: World, records: seq<Json>, i: nat, settings: Settings)
      requires i < |records|
      ensures SyncRecords(w, records[..i + 1], settings) == SyncStep(SyncRecords(w, records[..i], settings), records[i], settings)
    {
      PrefixStep(records, i);
    }

    lemma SaveItemsSnoc(w: World, context: SupplierContext, items: seq<GtinStockItem>, j: nat)
      requires j < |items|
      ensures SaveItems(w, context, items[..j + 1]) == SaveStep(SaveItems(w, context, items[..j]), context, items[j])
    {
      PrefixStep(items, j);
    }

    lemma {:induction false} SyncRecordsSticky(w: World, records: seq<Json>, i: nat, settings: Settings)
      requires i <= |records|
      requires SyncRecords(w, records[..i], settings).result.Failure?
      ensures SyncRecords(w, records, settings) == SyncRecords(w, records[..i], settings)
      decreases |records| - i
    {
      if i < |records| {
        SyncRecordsSnoc(w, records, i, settings);
        SyncRecordsSticky(w, records, i + 1, settings);
      } else {
        Whole(records);
      }
    }

    lemma {:induction false} SaveItemsSticky(w: World, context: SupplierContext, items: seq<GtinStockItem>, j: nat)
      requires j <= |items|
      requires SaveItems(w, context, items[..j]).result.Failure?
      ensures SaveItems(w, context, items) == SaveItems(w, context, items[..j])
      decreases |items| - j
    {
      if j < |items| {
        SaveItemsSnoc(w, context, items, j);
        SaveItemsSticky(w, context, items, j + 1);
      } else {
        Whole(items);
      }
    }

    /** `sync_all_supplier_stock`. */
    method SyncAllSupplierStock(path: string, file: ConfigFile, settings: Settings) returns (r: Result<(), Error>)
      requires stockRepo.Valid()
      modifies this, stockRepo, apiClient
      ensures stockRepo.Valid()
      ensures var s := SyncSpec(path, file, settings, old(Now()));
        r == s.result && Now() == s.world
    {
      if file.Missing? {
        return Failure(App(NewApplicationError("Suppliers configuration file not found at " + path, None)));
      }
      if file.Undecodable? {
        return Failure(App(NewApplicationError("Error decoding suppliers configuration from " + path, None)));
      }
      var suppliersData := file.document;
      if Elements(suppliersData).None? {
        return Failure(Builtin(TypeError, "'" + TypeName(suppliersData) + "' object is not iterable"));
      }
      r := SyncSuppliers(Elements(suppliersData).value, settings);
    }

    /** The loop over the supplier records. */
    method SyncSuppliers(records: seq<Json>, settings: Settings) returns (r: Result<(), Error>)
      requires stockRepo.Valid()
      modifies this, stockRepo, apiClient
      ensures stockRepo.Valid()
      ensures var s := SyncRecords(old(Now()), records, settings);
        r == s.result && Now() == s.world
    {
      ghost var w0 := Now();
      ghost var run := Run(Success(()), w0);
      var i := 0;
      while i < |records|
        invariant 0 <= i <= |records|
        invariant stockRepo.Valid()
        invariant run == SyncRecords(w0, records[..i], settings)
        invariant run.result.Success? && Now() == run.world
      {
        SyncRecordsSnoc(w0, records, i, settings);
        var supplierContext := ServiceContext(records[i], settings);
        if supplierContext.Failure? {
          SyncRecordsSticky(w0, records, i + 1, settings);
          return Failure(supplierContext.error);
        }
        SyncSupplier(supplierContext.value);
        run := Run(Success(()), SupplierSync(run.world, supplierContext.value));
        i := i + 1;
      }
      Whole(records);
      r := Success(());
    }

    /** The body of the outer loop's `try` for one supplier. */
    method SyncSupplier(context: SupplierContext)
      requires stockRepo.Valid()
      modifies this, stockRepo, apiClient
      ensures stockRepo.Valid()
      ensures Now() == SupplierSync(old(Now()), context)
    {
      calls := calls + [Fetched(context)];
      var stockResponse := apiClient.FetchGtinStockData(context);
      if stockResponse.Failure? || stockResponse.value.stockItems == [] {
        return;
      }
      var saved := SaveEach(context, stockResponse.value.stockItems);
    }

    /** The inner loop: each item saved in order; the first exception ends it. */
    method SaveEach(context: SupplierContext, items: seq<GtinStockItem>) returns (r: Result<(), Error>)
      requires stockRepo.Valid()
      modifies this, stockRepo
      ensures stockRepo.Valid()
      ensures apiClient.processedCount == old(apiClient.processedCount) && apiClient.effects == old(apiClient.effects)
      ensures var s := SaveItems(old(Now()), context, items);
        r == s.result && Now() == s.world
    {
      ghost var w0 := Now();
      ghost var run := Run(Success(()), w0);
      var j := 0;
      while j < |items|
        invariant 0 <= j <= |items|
        invariant stockRepo.Valid()
        invariant run == SaveItems(w0, context, items[..j])
        invariant run.result.Success? && Now() == run.world
      {
        SaveItemsSnoc(w0, context, items, j);
        calls := calls + [Saved(context, items[j])];
        var saved := stockRepo.SaveGtinStockItem(context, items[j]);
        run := SaveStep(run, context, items[j]);
        if saved.Failure? {
          SaveItemsSticky(w0, context, items, j + 1);
          return saved;
        }
        j := j + 1;
      }
      Whole(items);
      r := Success(());
    }

    /** `get_supplier_stock_data`: the repository's answer for the context, or the DatabaseError it raises. */
    method GetSupplierStockData(context: SupplierContext) returns (r: Result<GtinStockResponse, Error>)
      requires stockRepo.Valid()
      modifies stockRepo`statements
      ensures stockRepo.statements == old(stockRepo.statements) + 1
      ensures r.Failure? <==> stockRepo.driverError(old(stockRepo.statements)).Some?
      ensures r.Failure? ==>
        r.error == GtinStockRepository.QueryError("Error fetching GTIN stock by supplier GLN " + Str(context.supplierGln),
                                                  stockRepo.driverError(old(stockRepo.statements)).value)
      ensures r.Success? ==> r.value.supplierContext == context
      ensures r.Success? ==>
        |r.value.stockItems| == |set k | k in stockRepo.rows && k.supplierGln == context.supplierGln && k.retailerGln == context.retailerGln|
      ensures r.Success? ==> forall item :: item in r.value.stockItems <==>
        exists k :: k in stockRepo.rows && k.supplierGln == context.supplierGln && k.retailerGln == context.retailerGln &&
          item == ToItem(stockRepo.rows[k])
      ensures r.Success? ==> Distinct(r.value.stockItems)
    {
      r := stockRepo.GetGtinStockBySupplierContext(context);
    }
  }
}

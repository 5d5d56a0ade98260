/**
 * The optimised supplier run of step1_main.py: loading the suppliers
 * configuration, building a supplier context from each record, and the loop
 * that fetches every supplier with batches of 100 and a save callback while
 * counting successes, failures and items.
 */
module Step1Sync {
  import opened Wrappers
  import opened JsonModel
  import opened Exceptions
  import opened PyJson
  import opened StockDtos
  import opened GlobalStockClient
  import opened SeqFacts
  import opened SupplierConfig

  /** The three counters of the run. */
  datatype Summary = Summary(totalProcessedItems: nat, successfulSuppliers: nat, failedSuppliers: nat)

  const RunBatchSize: int := 100

  function ConfigError(message: string): Error {
    App(NewApplicationError(message, None))
  }

  /** The value under "suppliers" when the document is an object holding that key. */
  function SuppliersEntry(document: Json): Option<Json> {
    if document.JObj? then Lookup(document.fields, "suppliers") else None
  }

  /**
   * `load_suppliers_config`: the "suppliers" value of a wrapper object, or a
   * top-level list itself; anything else, and an empty result, is an
   * ApplicationError.
   */
  function LoadSuppliersConfig(path: string, file: ConfigFile): (r: Result<Json, Error>)
    ensures r.Success? <==>
      file.Parsed? &&
      ((SuppliersEntry(file.document).Some? && Truthy(SuppliersEntry(file.document).value)) ||
       (file.document.JArr? && file.document.items != []))
    ensures r.Success? ==> Truthy(r.value)
    ensures r.Success? && file.document.JArr? ==> r.value == file.document
    ensures r.Success? && file.document.JObj? ==> r == Success(SuppliersEntry(file.document).value)
    ensures r.Failure? ==> r.error.App? && r.error.exception.ApplicationError? && r.error.exception.originalException.None?
  {
    match file
    case Missing => Failure(ConfigError("Suppliers configuration file not found at " + path))
    case Undecodable(detail) => Failure(ConfigError("Error decoding suppliers configuration: " + detail))
    case Parsed(document) =>
      if SuppliersEntry(document).None? && !document.JArr? then Failure(ConfigError("Invalid suppliers configuration format"))
      else
        var suppliers := if SuppliersEntry(document).Some? then SuppliersEntry(document).value else document;
        if !Truthy(suppliers) then Failure(ConfigError("No suppliers found in configuration"))
        else Success(suppliers)
  }

  /** Python's `a or b`. */
  function Either(a: Json, b: Json): (r: Json)
    ensures Truthy(a) ==> r == a
    ensures !Truthy(a) ==> r == b
    ensures Truthy(r) <==> Truthy(a) || Truthy(b)
  {
    if Truthy(a) then a else b
  }

  /** A supplier field: the lower-case key, or the upper-case key when that value is missing or falsy. */
  function Field(fields: seq<(string, Json)>, lower: string, upper: string): Json {
    Either(Get(fields, lower), Get(fields, upper))
  }

  /**
   * `create_supplier_context`: the three supplier fields resolved with the
   * fallback, all required to be truthy; the retailer fields come from the settings.
   */
  function CreateSupplierContext(record: Json, settings: Settings): (r: Result<SupplierContext, Error>)
    ensures !record.JObj? ==> r == Failure(NoGet(record))
    ensures r.Success? <==>
      record.JObj? &&
      Truthy(Field(record.fields, "supplier_id", "SUPPLIER_ID")) &&
      Truthy(Field(record.fields, "supplier_gln", "SUPPLIER_GLN")) &&
      Truthy(Field(record.fields, "supplier_name", "SUPPLIER_NAME"))
    ensures r.Success? ==>
      r.value.retailerId == settings.retailerId && r.value.retailerGln == settings.retailerGln &&
      r.value.supplierId == Field(record.fields, "supplier_id", "SUPPLIER_ID") &&
      r.value.supplierGln == Field(record.fields, "supplier_gln", "SUPPLIER_GLN") &&
      r.value.supplierName == Field(record.fields, "supplier_name", "SUPPLIER_NAME")
    ensures r.Failure? && record.JObj? ==> r.error.App? && r.error.exception.ApplicationError?
  {
    if !record.JObj? then Failure(NoGet(record))
    else
      var id := Field(record.fields, "supplier_id", "SUPPLIER_ID");
      var gln := Field(record.fields, "supplier_gln", "SUPPLIER_GLN");
      var name := Field(record.fields, "supplier_name", "SUPPLIER_NAME");
      if !(Truthy(id) && Truthy(gln) && Truthy(name)) then
        Failure(App(NewApplicationError("Missing required supplier fields in config: " + Repr(record), None)))
      else Success(SupplierContext(settings.retailerId, settings.retailerGln, id, gln, name))
  }

  /** What one record of the loop ends with: the fetched response or the exception raised for it. */
  function SupplierOutcome(c: GlobalStockApiClient, record: Json, settings: Settings): Result<GtinStockResponse, Error> {
    match CreateSupplierContext(record, settings)
    case Failure(err) => Failure(err)
    case Success(context) => c.FetchSpec(context, RunBatchSize, true).result
  }

  /** The run's state after some records: the counters (or the exception that ended the run), the client's effects and counter. */
  datatype RunState = RunState(summary: Result<Summary, Error>, effects: seq<Effect>, counter: int)

  /** The client effects of one record: none when its context cannot be built. */
  function SupplierEffects(c: GlobalStockApiClient, record: Json, settings: Settings): seq<Effect> {
    match CreateSupplierContext(record, settings)
    case Failure(_) => []
    case Success(context) => c.FetchSpec(context, RunBatchSize, true).effects
  }

  /** The client's counter after one record, from `previous`. */
  function SupplierCounter(c: GlobalStockApiClient, record: Json, settings: Settings, previous: int): int {
    match CreateSupplierContext(record, settings)
    case Failure(_) => previous
    case Success(context) =>
      var f := c.FetchSpec(context, RunBatchSize, true);
      if f.counter.Some? then f.counter.value else previous
  }

  /** The counters after one more supplier: any exception for the record counts as a failure. */
  function Tally(s: Summary, outcome: Result<GtinStockResponse, Error>): Summary {
    if outcome.Success? then Summary(s.totalProcessedItems + |outcome.value.stockItems|, s.successfulSuppliers + 1, s.failedSuppliers)
    else s.(failedSuppliers := s.failedSuppliers + 1)
  }

  /**
   * One record of the loop, unless an exception already ended the run. When
   * the `try` body raises for a record that is not a dict, the handler's own
   * `supplier_data.get(...)` raises AttributeError, which ends the run.
   */
  function RunStep(c: GlobalStockApiClient, st: RunState, record: Json, settings: Settings): RunState {
    if st.summary.Failure? then st
    else
      var outcome := SupplierOutcome(c, record, settings);
      var effects := st.effects + SupplierEffects(c, record, settings);
      var counter := SupplierCounter(c, record, settings, st.counter);
      if outcome.Failure? && !record.JObj? then RunState(Failure(NoGet(record)), effects, counter)
      else RunState(Success(Tally(st.summary.value, outcome)), effects, counter)
  }

  /** The supplier loop over `records`, starting from the client's counter `counter0`. */
  function RunRecords(c: GlobalStockApiClient, records: seq<Json>, settings: Settings, counter0: int): RunState
    decreases |records|
  {
    if records == [] then RunState(Success(Summary(0, 0, 0)), [], counter0)
    else RunStep(c, RunRecords(c, records[..|records| - 1], settings, counter0), records[|records| - 1], settings)
  }

  /** The whole run after the tables and dependencies are set up. */
  function RunSpec(c: GlobalStockApiClient, path: string, file: ConfigFile, settings: Settings, counter0: int): RunState {
    match LoadSuppliersConfig(path, file)
    case Failure(err) => RunState(Failure(err), [], counter0)
    case Success(suppliers) =>
      match Elements(suppliers)
      case None => RunState(Failure(Builtin(TypeError, "object of type '" + TypeName(suppliers) + "' has no len()")), [], counter0)
      case Some(records) => RunRecords(c, records, settings, counter0)
  }

  /** One record of the loop, unfolded. */
  lemma RunRecordsStep(c: GlobalStockApiClient, records: seq<Json>, i: nat, settings: Settings, counter0: int)
    requires i < |records|
    ensures RunRecords(c, records[..i + 1], settings, counter0) == RunStep(c, RunRecords(c, records[..i], settings, counter0), records[i], settings)
  {
    PrefixStep(records, i);
  }

  /** Once an exception has ended the run, the remaining records change nothing. */
  lemma {:induction false} RunRecordsSticky(c: GlobalStockApiClient, records: seq<Json>, i: nat, settings: Settings, counter0: int)
    requires i <= |records|
    requires RunRecords(c, records[..i], settings, counter0).summary.Failure?
    ensures RunRecords(c, records, settings, counter0) == RunRecords(c, records[..i], settings, counter0)
    decreases |records| - i
  {
    if i < |records| {
      RunRecordsStep(c, records, i, settings, counter0);
      RunRecordsSticky(c, records, i + 1, settings, counter0);
    } else {
      Whole(records);
    }
  }

  /**
   * `run_gtin_stock_sync_process_optimized` from loading the configuration
   * to the summary. The save callback forwards non-empty item lists to the
   * repository; its calls are the client's `BatchHandedOver` effects.
   */
  method RunGtinStockSyncProcessOptimized(path: string, file: ConfigFile, settings: Settings, client: GlobalStockApiClient)
    returns (r: Result<Summary, Error>)
    modifies client`processedCount, client`effects
    ensures var st := RunSpec(client, path, file, settings, old(client.processedCount));
      r == st.summary && client.effects == old(client.effects) + st.effects && client.processedCount == st.counter
  {
    var loaded := LoadSuppliersConfig(path, file);
    if loaded.Failure? {
      return Failure(loaded.error);
    }
    var suppliersList := loaded.value;
    if Elements(suppliersList).None? {
      return Failure(Builtin(TypeError, "object of type '" + TypeName(suppliersList) + "' has no len()"));
    }
    r := ProcessSuppliers(Elements(suppliersList).value, settings, client);
  }

  /** The supplier loop with its three counters. */
  method ProcessSuppliers(records: seq<Json>, settings: Settings, client: GlobalStockApiClient) returns (r: Result<Summary, Error>)
    modifies client`processedCount, client`effects
    ensures var st := RunRecords(client, records, settings, old(client.processedCount));
      r == st.summary && client.effects == old(client.effects) + st.effects && client.processedCount == st.counter
  {
    var summary := Summary(0, 0, 0);
    ghost var counter0 := client.processedCount;
    ghost var run := RunRecords(client, records[..0], settings, counter0);
    var i := 0;
    while i < |records|
      invariant 0 <= i <= |records|
      invariant run == RunRecords(client, records[..i], settings, counter0)
      invariant run.summary == Success(summary)
      invariant client.effects == old(client.effects) + run.effects
      invariant client.processedCount == run.counter
    {
      RunRecordsStep(client, records, i, settings, counter0);
      var outcome := ProcessSupplier(records[i], settings, client);
      Associative(old(client.effects), run.effects, SupplierEffects(client, records[i], settings));
      if outcome.Failure? && !records[i].JObj? {
        RunRecordsSticky(client, records, i + 1, settings, counter0);
        return Failure(NoGet(records[i]));
      }
      summary := Tally(summary, outcome);
      run := RunRecords(client, records[..i + 1], settings, counter0);
      i := i + 1;
    }
    Whole(records);
    r := Success(summary);
  }

  /** The body of the loop's `try`: the context, then the fetch with batches of 100 and the save callback. */
  method ProcessSupplier(record: Json, settings: Settings, client: GlobalStockApiClient) returns (outcome: Result<GtinStockResponse, Error>)
    modifies client`processedCount, client`effects
    ensures outcome == SupplierOutcome(client, record, settings)
    ensures client.effects == old(client.effects) + SupplierEffects(client, record, settings)
    ensures client.processedCount == SupplierCounter(client, record, settings, old(client.processedCount))
  {
    var supplierContext := CreateSupplierContext(record, settings);
    if supplierContext.Failure? {
      return Failure(supplierContext.error);
    }
    outcome := client.FetchGtinStockDataOptimized(supplierContext.value, RunBatchSize, true);
  }

  /** What the `try` body ends with, for each record. */
  function Outcome(c: GlobalStockApiClient, settings: Settings): Json -> Result<GtinStockResponse, Error> {
    record => SupplierOutcome(c, record, settings)
  }

  /** Records whose supplier ended without an exception, counted head first. */
  function Succeeded(outcome: Json -> Result<GtinStockResponse, Error>, records: seq<Json>): nat {
    if records == [] then 0
    else (if outcome(records[0]).Success? then 1 else 0) + Succeeded(outcome, records[1..])
  }

  /** The items returned for the successful suppliers, counted head first. */
  function ItemsFetched(outcome: Json -> Result<GtinStockResponse, Error>, records: seq<Json>): nat {
    if records == [] then 0
    else
      var o := outcome(records[0]);
      (if o.Success? then |o.value.stockItems| else 0) + ItemsFetched(outcome, records[1..])
  }

  lemma {:induction false} CountsAppend(outcome: Json -> Result<GtinStockResponse, Error>, records: seq<Json>, x: Json)
    ensures Succeeded(outcome, records + [x]) == Succeeded(outcome, records) + Succeeded(outcome, [x])
    ensures ItemsFetched(outcome, records + [x]) == ItemsFetched(outcome, records) + ItemsFetched(outcome, [x])
    decreases |records|
  {
    if records != [] {
      assert (records + [x])[1..] == records[1..] + [x];
      CountsAppend(outcome, records[1..], x);
    }
  }

  /** The supplier loop as evidently intended: every exception for a record counts as one failed supplier. */
  function RunIntended(outcome: Json -> Result<GtinStockResponse, Error>, records: seq<Json>): Summary
    decreases |records|
  {
    if records == [] then Summary(0, 0, 0)
    else Tally(RunIntended(outcome, records[..|records| - 1]), outcome(records[|records| - 1]))
  }

  /**
   * The intended loop never ends the run: successful + failed is the number
   * of records, successful counts the records fetched without an exception,
   * and the item total sums their responses.
   */
  lemma {:induction false} IntendedCountsEveryRecord(outcome: Json -> Result<GtinStockResponse, Error>, records: seq<Json>)
    ensures var s := RunIntended(outcome, records);
      s.successfulSuppliers + s.failedSuppliers == |records| &&
      s.successfulSuppliers == Succeeded(outcome, records) &&
      s.totalProcessedItems == ItemsFetched(outcome, records)
    decreases |records|
  {
    if records != [] {
      var rest := records[..|records| - 1];
      var x := records[|records| - 1];
      IntendedCountsEveryRecord(outcome, rest);
      CountsAppend(outcome, rest, x);
      assert records == rest + [x];
      assert [x][1..] == [];
    }
  }

  /** From a run still going, a record that is a dict is tallied and any other record ends the run. */
  lemma RunStepOnSuccess(c: GlobalStockApiClient, st: RunState, x: Json, settings: Settings)
    requires st.summary.Success?
    ensures RunStep(c, st, x, settings).summary.Success? <==> x.JObj?
    ensures x.JObj? ==> RunStep(c, st, x, settings).summary == Success(Tally(st.summary.value, Outcome(c, settings)(x)))
  {
    if !x.JObj? {
      assert CreateSupplierContext(x, settings).Failure?;
    }
  }

  /** A step keeps the run going exactly when it was going and the record is a dict. */
  lemma RunStepGoesOn(c: GlobalStockApiClient, st: RunState, x: Json, settings: Settings)
    ensures RunStep(c, st, x, settings).summary.Success? <==> st.summary.Success? && x.JObj?
  {
    if st.summary.Success? {
      RunStepOnSuccess(c, st, x, settings);
    }
  }

  /** The loop as written completes exactly when every record is a dict. */
  lemma {:induction false} RunCompletesOnObjects(c: GlobalStockApiClient, records: seq<Json>, settings: Settings, counter0: int)
    ensures RunRecords(c, records, settings, counter0).summary.Success? <==> forall k :: 0 <= k < |records| ==> records[k].JObj?
    decreases |records|
  {
    if records != [] {
      var rest := records[..|records| - 1];
      var x := records[|records| - 1];
      RunCompletesOnObjects(c, rest, settings, counter0);
      RunStepGoesOn(c, RunRecords(c, rest, settings, counter0), x, settings);
      assert (forall k :: 0 <= k < |records| ==> records[k].JObj?) <==>
             (forall k :: 0 <= k < |rest| ==> rest[k].JObj?) && x.JObj? by {
        assert forall k :: 0 <= k < |rest| ==> rest[k] == records[k];
      }
    }
  }

  /** When every record is a dict the handler cannot raise, and the loop as written gives the intended summary. */
  lemma {:induction false} AsWrittenAgreesOnObjects(c: GlobalStockApiClient, records: seq<Json>, settings: Settings, counter0: int)
    requires forall k :: 0 <= k < |records| ==> records[k].JObj?
    ensures RunRecords(c, records, settings, counter0).summary == Success(RunIntended(Outcome(c, settings), records))
    decreases |records|
  {
    if records != [] {
      var rest := records[..|records| - 1];
      AsWrittenAgreesOnObjects(c, rest, settings, counter0);
      RunStepOnSuccess(c, RunRecords(c, rest, settings, counter0), records[|records| - 1], settings);
    }
  }

  /**
   * The run ends early exactly when some record is not a dict. When every
   * record is one, successful + failed is the number of records, successful
   * counts the records fetched without an exception, and the item total sums
   * their responses.
   */
  lemma EveryRecordCounted(c: GlobalStockApiClient, records: seq<Json>, settings: Settings, counter0: int)
    ensures var st := RunRecords(c, records, settings, counter0);
      st.summary.Success? <==> forall k :: 0 <= k < |records| ==> records[k].JObj?
    ensures var st := RunRecords(c, records, settings, counter0);
      st.summary.Success? ==>
        st.summary.value.successfulSuppliers + st.summary.value.failedSuppliers == |records| &&
        st.summary.value.successfulSuppliers == Succeeded(Outcome(c, settings), records) &&
        st.summary.value.totalProcessedItems == ItemsFetched(Outcome(c, settings), records)
  {
    RunCompletesOnObjects(c, records, settings, counter0);
    if forall k :: 0 <= k < |records| ==> records[k].JObj? {
      AsWrittenAgreesOnObjects(c, records, settings, counter0);
      IntendedCountsEveryRecord(Outcome(c, settings), records);
    }
  }

  /**
   * The first record that is not a dict ends the run with the AttributeError
   * of its `.get`, after the effects and counter of the records before it.
   */
  lemma FirstNonObjectEndsRun(c: GlobalStockApiClient, records: seq<Json>, i: nat, settings: Settings, counter0: int)
    requires i < |records| && !records[i].JObj?
    requires forall k :: 0 <= k < i ==> records[k].JObj?
    ensures var before := RunRecords(c, records[..i], settings, counter0);
      RunRecords(c, records, settings, counter0) == RunState(Failure(NoGet(records[i])), before.effects, before.counter)
  {
    var before := RunRecords(c, records[..i], settings, counter0);
    RunCompletesOnObjects(c, records[..i], settings, counter0);
    assert before.summary.Success?;
    RunRecordsStep(c, records, i, settings, counter0);
    assert SupplierEffects(c, records[i], settings) == [];
    assert before.effects + [] == before.effects;
    RunRecordsSticky(c, records, i + 1, settings, counter0);
  }

  /** As written, one record that is not a dict (here a bare string) ends the whole run; the intended loop counts it as a failure. */
  lemma NonObjectRecordAbortsRun(c: GlobalStockApiClient, settings: Settings, counter0: int)
    ensures RunRecords(c, [JStr("acme")], settings, counter0).summary == Failure(NoGet(JStr("acme")))
    ensures RunIntended(Outcome(c, settings), [JStr("acme")]) == Summary(0, 0, 1)
  {
    assert [JStr("acme")][..0] == [];
  }
}

/**
 * What the legacy sync does across suppliers and items: one fetch per
 * supplier in configuration order, the saves of a supplier form a prefix of
 * its items, and the first malformed record ends the whole run.
 */
module GtinStockServiceProperties {
  import opened Wrappers
  import opened JsonModel
  import opened StockDtos
  import opened GtinStockStore
  import opened SupplierConfig
  import opened GtinStockService
  import opened SeqFacts

  lemma {:induction false} FetchesAppend(a: seq<Call>, b: seq<Call>)
    ensures Fetches(a + b) == Fetches(a) + Fetches(b)
    decreases |b|
  {
    if b == [] {
      assert a + b == a;
    } else {
      var init := b[..|b| - 1];
      FetchesAppend(a, init);
      assert (a + b)[..|a + b| - 1] == a + init;
      assert (a + b)[|a + b| - 1] == b[|b| - 1];
    }
  }

  lemma {:induction false} SavesFetchNothing(context: SupplierContext, items: seq<GtinStockItem>)
    ensures Fetches(SaveCalls(context, items)) == []
    decreases |items|
  {
    if items != [] {
      var init := items[..|items| - 1];
      SavesFetchNothing(context, init);
      FetchesAppend(SaveCalls(context, init), [Saved(context, items[|items| - 1])]);
    }
  }

  /**
   * The saves of one supplier: some number `n` of its items, in order, are
   * saved, one statement each. The run stops early only because the `n`-th
   * save raised, and that exception is the result; nothing on the client
   * side changes.
   */
  lemma {:induction false} SaveItemsPrefix(svc: GtinStockApplicationService, w: World, context: SupplierContext,
                                           items: seq<GtinStockItem>)
    ensures var s := svc.SaveItems(w, context, items);
      var n := |s.world.calls| - |w.calls|;
      0 <= n <= |items| &&
      s.world.calls == w.calls + SaveCalls(context, items[..n]) &&
      s.world.statements == w.statements + n &&
      s.world.counter == w.counter && s.world.effects == w.effects &&
      (s.result.Success? ==> n == |items|) &&
      (s.result.Failure? ==> 0 < n && s.result == svc.stockRepo.SaveResult(context, items[n - 1], w.statements + n - 1))
    decreases |items|
  {
    if items == [] {
      assert items[..0] == [];
    } else {
      var init := items[..|items| - 1];
      SaveItemsPrefix(svc, w, context, init);
      var s0 := svc.SaveItems(w, context, init);
      var n0 := |s0.world.calls| - |w.calls|;
      if s0.result.Failure? {
        assert init[..n0] == items[..n0];
      } else {
        Whole(init);
        SnocSplit(items);
        Associative(w.calls, SaveCalls(context, init), [Saved(context, items[|items| - 1])]);
        Whole(items);
      }
    }
  }

  /** No save of `items`, the first one at statement `start`, raises. */
  predicate NoSaveRaises(svc: GtinStockApplicationService, context: SupplierContext, items: seq<GtinStockItem>, start: nat)
    decreases |items|
  {
    items == [] ||
    (NoSaveRaises(svc, context, items[..|items| - 1], start) &&
     svc.stockRepo.SaveResult(context, items[|items| - 1], start + |items| - 1).Success?)
  }

  /** `NoSaveRaises` says that the save of item `k` is statement `start + k` and succeeds, for every `k`. */
  lemma {:induction false} NoSaveRaisesMeaning(svc: GtinStockApplicationService, context: SupplierContext,
                                               items: seq<GtinStockItem>, start: nat)
    ensures NoSaveRaises(svc, context, items, start) <==>
      forall k :: 0 <= k < |items| ==> svc.stockRepo.SaveResult(context, items[k], start + k).Success?
    decreases |items|
  {
    if items != [] {
      var init := items[..|items| - 1];
      NoSaveRaisesMeaning(svc, context, init, start);
      assert forall k :: 0 <= k < |init| ==> init[k] == items[k];
    }
  }

  /** When no save raises, every item is saved, in order, one statement each. */
  lemma {:induction false} SaveItemsAll(svc: GtinStockApplicationService, w: World, context: SupplierContext,
                                        items: seq<GtinStockItem>)
    requires NoSaveRaises(svc, context, items, w.statements)
    ensures svc.SaveItems(w, context, items).result.Success?
    ensures svc.SaveItems(w, context, items).world.statements == w.statements + |items|
    ensures svc.SaveItems(w, context, items).world.calls == w.calls + SaveCalls(context, items)
    decreases |items|
  {
    if items != [] {
      var init := items[..|items| - 1];
      SaveItemsAll(svc, w, context, init);
      SnocSplit(items);
      Associative(w.calls, SaveCalls(context, init), [Saved(context, items[|items| - 1])]);
    }
  }

  /** The table holds a row under the item's key; the item has a GTIN. */
  predicate Stored(rows: map<StockKey, StockRow>, context: SupplierContext, item: GtinStockItem) {
    item.gtin != JNull && StockKey(item.gtin, context.supplierGln, context.retailerGln) in rows
  }

  /** A save that does not raise stores its item's row and removes nothing. */
  lemma SaveStepStores(svc: GtinStockApplicationService, s: Run, context: SupplierContext, item: GtinStockItem)
    requires s.result.Success? && svc.stockRepo.SaveResult(context, item, s.world.statements).Success?
    ensures s.world.rows.Keys <= svc.SaveStep(s, context, item).world.rows.Keys
    ensures Stored(svc.SaveStep(s, context, item).world.rows, context, item)
  {
    UpsertKeepsKeys(s.world.rows, NewRow(context, item));
  }

  /**
   * When no save raises, every item has a GTIN and ends up with a row under
   * its key, and no row present before the saves is removed.
   */
  lemma {:induction false} SaveItemsStoresEach(svc: GtinStockApplicationService, w: World, context: SupplierContext,
                                               items: seq<GtinStockItem>)
    requires NoSaveRaises(svc, context, items, w.statements)
    ensures w.rows.Keys <= svc.SaveItems(w, context, items).world.rows.Keys
    ensures forall k :: 0 <= k < |items| ==> Stored(svc.SaveItems(w, context, items).world.rows, context, items[k])
    decreases |items|
  {
    if items != [] {
      var init := items[..|items| - 1];
      var last := items[|items| - 1];
      SaveItemsStoresEach(svc, w, context, init);
      SaveItemsAll(svc, w, context, init);
      var s0 := svc.SaveItems(w, context, init);
      assert s0.world.statements == w.statements + |items| - 1;
      SaveStepStores(svc, s0, context, last);
      var rows0 := s0.world.rows;
      var rows := svc.SaveStep(s0, context, last).world.rows;
      assert rows == svc.SaveItems(w, context, items).world.rows;
      forall k | 0 <= k < |items|
        ensures Stored(rows, context, items[k])
      {
        if k < |init| {
          assert items[k] == init[k] && Stored(rows0, context, init[k]);
        }
      }
    }
  }

  /**
   * One supplier: exactly one fetch, with its context, followed only by
   * saves of that context; a failed fetch or an empty response saves nothing.
   */
  lemma SupplierSyncCalls(svc: GtinStockApplicationService, w: World, context: SupplierContext)
    ensures var after := svc.SupplierSync(w, context).calls;
      |after| > |w.calls| && after[..|w.calls| + 1] == w.calls + [Fetched(context)] &&
      Fetches(after) == Fetches(w.calls) + [context]
    ensures var f := svc.apiClient.FetchSpec(context, GlobalStockClient.LegacyBatchSize, false);
      f.result.Failure? || f.result.value.stockItems == [] ==>
        svc.SupplierSync(w, context).calls == w.calls + [Fetched(context)]
  {
    var fetched := svc.AfterFetch(w, context);
    var f := svc.apiClient.FetchSpec(context, GlobalStockClient.LegacyBatchSize, false);
    FetchesAppend(w.calls, [Fetched(context)]);
    if !(f.result.Failure? || f.result.value.stockItems == []) {
      var items := f.result.value.stockItems;
      SaveItemsPrefix(svc, fetched, context, items);
      var s := svc.SaveItems(fetched, context, items);
      var n := |s.world.calls| - |fetched.calls|;
      SavesFetchNothing(context, items[..n]);
      FetchesAppend(fetched.calls, SaveCalls(context, items[..n]));
    }
  }

  /**
   * A configuration whose records all yield a context completes, and the
   * supplier fetches follow the records one for one, in order.
   */
  lemma {:induction false} WellFormedRecordsFetchEach(svc: GtinStockApplicationService, w: World,
                                                      records: seq<Json>, settings: Settings)
    requires forall k :: 0 <= k < |records| ==> ServiceContext(records[k], settings).Success?
    ensures svc.SyncRecords(w, records, settings).result.Success?
    ensures Fetches(svc.SyncRecords(w, records, settings).world.calls) == Fetches(w.calls) + Contexts(records, settings)
    decreases |records|
  {
    if records != [] {
      var init := records[..|records| - 1];
      WellFormedRecordsFetchEach(svc, w, init, settings);
      var s0 := svc.SyncRecords(w, init, settings);
      var context := ServiceContext(records[|records| - 1], settings).value;
      SupplierSyncCalls(svc, s0.world, context);
      Associative(Fetches(w.calls), Contexts(init, settings), [context]);
    }
  }

  /**
   * The first record without a context ends the run with that record's
   * exception, leaving the world as the records before it left it.
   */
  lemma FirstBadRecordEndsRun(svc: GtinStockApplicationService, w: World, records: seq<Json>,
                              settings: Settings, k: nat)
    requires k < |records|
    requires forall j :: 0 <= j < k ==> ServiceContext(records[j], settings).Success?
    requires ServiceContext(records[k], settings).Failure?
    ensures svc.SyncRecords(w, records, settings) ==
      Run(Failure(ServiceContext(records[k], settings).error), svc.SyncRecords(w, records[..k], settings).world)
  {
    assert forall j :: 0 <= j < k ==> records[..k][j] == records[j];
    WellFormedRecordsFetchEach(svc, w, records[..k], settings);
    svc.SyncRecordsSnoc(w, records, k, settings);
    svc.SyncRecordsSticky(w, records, k + 1, settings);
  }

  /** A configuration file that is missing or cannot be decoded changes nothing. */
  lemma UnreadableConfigChangesNothing(svc: GtinStockApplicationService, path: string, file: ConfigFile,
                                       settings: Settings, w: World)
    requires !file.Parsed?
    ensures svc.SyncSpec(path, file, settings, w).result.Failure?
    ensures svc.SyncSpec(path, file, settings, w).result.error.App?
    ensures svc.SyncSpec(path, file, settings, w).world == w
  {
  }
}

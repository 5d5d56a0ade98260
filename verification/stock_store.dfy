/**
 * The `pds_gtin_stock` table behind MySQLGtinStockRepository, as a map from
 * the unique key (gtin, supplier_gln, retailer_gln) to the row.
 *
 * Column values are kept as the Python values handed to the driver; the
 * driver's errors other than NOT NULL violations come from an oracle on the
 * position of the statement.
 */
module GtinStockStore {
  import opened Wrappers
  import opened JsonModel
  import opened Exceptions
  import opened StockDtos

  /** `uk_gtin_supplier_retailer`. */
  datatype StockKey = StockKey(gtin: Json, supplierGln: Json, retailerGln: string)

  /** A row, without the auto-increment id and `date_synced`. */
  datatype StockRow = StockRow(
    retailerId: string,
    retailerGln: string,
    supplierId: Json,
    supplierGln: Json,
    supplierName: Json,
    gtin: Json,
    quantity: Json,
    stockTrafficLight: Json,
    itemType: Option<string>,
    timestamp: Option<Timestamp>)

  function KeyOf(row: StockRow): StockKey {
    StockKey(row.gtin, row.supplierGln, row.retailerGln)
  }

  /** Every row is stored under its own key, so there is at most one row per key. */
  predicate ValidRows(rows: map<StockKey, StockRow>) {
    forall k :: k in rows ==> KeyOf(rows[k]) == k
  }

  /** The NOT NULL column that an insert of this context and item would leave null, if any. */
  function NullColumn(context: SupplierContext, item: GtinStockItem): (c: Option<string>)
    ensures c.None? <==> context.supplierId != JNull && context.supplierGln != JNull && item.gtin != JNull
  {
    if context.supplierId == JNull then Some("supplier_id")
    else if context.supplierGln == JNull then Some("supplier_gln")
    else if item.gtin == JNull then Some("gtin")
    else None
  }

  function NotNullText(column: string): string {
    "1048 (23000): Column '" + column + "' cannot be null"
  }

  /** The row `save_gtin_stock_item` inserts: the five context values and the five item values. */
  function NewRow(context: SupplierContext, item: GtinStockItem): (row: StockRow)
    requires NullColumn(context, item).None?
    ensures row.retailerId == context.retailerId && row.retailerGln == context.retailerGln
    ensures row.supplierId == context.supplierId && row.supplierGln == context.supplierGln
    ensures row.supplierName == context.supplierName && row.gtin == item.gtin
    ensures row.quantity == item.quantity && row.stockTrafficLight == item.stockTrafficLight
    ensures row.itemType == item.itemType && row.timestamp == item.timestamp
  {
    StockRow(context.retailerId, context.retailerGln, context.supplierId, context.supplierGln,
             context.supplierName, item.gtin, item.quantity, item.stockTrafficLight,
             item.itemType, item.timestamp)
  }

  /** INSERT ... ON DUPLICATE KEY UPDATE: a new key gets the whole row, an existing one only the four stock columns. */
  function Upsert(rows: map<StockKey, StockRow>, row: StockRow): map<StockKey, StockRow> {
    var k := KeyOf(row);
    if k in rows then
      rows[k := rows[k].(quantity := row.quantity, stockTrafficLight := row.stockTrafficLight,
                         itemType := row.itemType, timestamp := row.timestamp)]
    else rows[k := row]
  }

  /** Upserting keeps every row under its own key, and adds at most the row's key. */
  lemma UpsertKeepsKeys(rows: map<StockKey, StockRow>, row: StockRow)
    ensures ValidRows(rows) ==> ValidRows(Upsert(rows, row))
    ensures Upsert(rows, row).Keys == rows.Keys + {KeyOf(row)}
  {
  }

  /** On a new key the whole row is inserted. */
  lemma UpsertInsertsNewKey(rows: map<StockKey, StockRow>, row: StockRow)
    requires KeyOf(row) !in rows
    ensures Upsert(rows, row)[KeyOf(row)] == row
  {
  }

  /** On an existing key only quantity, traffic light, item type and timestamp change. */
  lemma UpsertUpdatesStockColumns(rows: map<StockKey, StockRow>, row: StockRow)
    requires ValidRows(rows)
    requires KeyOf(row) in rows
    ensures var old_ := rows[KeyOf(row)];
      var new_ := Upsert(rows, row)[KeyOf(row)];
      new_.retailerId == old_.retailerId && new_.supplierId == old_.supplierId &&
      new_.supplierName == old_.supplierName && KeyOf(new_) == KeyOf(row) &&
      new_.quantity == row.quantity && new_.stockTrafficLight == row.stockTrafficLight &&
      new_.itemType == row.itemType && new_.timestamp == row.timestamp
  {
  }

  /** Rows under other keys are untouched. */
  lemma UpsertLeavesOtherKeys(rows: map<StockKey, StockRow>, row: StockRow, k: StockKey)
    requires k != KeyOf(row)
    ensures k in Upsert(rows, row) <==> k in rows
    ensures k in rows ==> Upsert(rows, row)[k] == rows[k]
  {
  }

  /** Saving the same row twice is saving it once. */
  lemma UpsertIdempotent(rows: map<StockKey, StockRow>, row: StockRow)
    requires ValidRows(rows)
    ensures Upsert(Upsert(rows, row), row) == Upsert(rows, row)
  {
    var k := KeyOf(row);
    var once := Upsert(rows, row);
    var twice := Upsert(once, row);
    assert twice.Keys == once.Keys;
    forall j | j in once
      ensures twice[j] == once[j]
    {
      if j == k {
        assert once[k].quantity == row.quantity && once[k].stockTrafficLight == row.stockTrafficLight;
        assert once[k].itemType == row.itemType && once[k].timestamp == row.timestamp;
      }
    }
  }

  /** The DTO a row reads back as. */
  function ToItem(row: StockRow): GtinStockItem {
    GtinStockItem(row.gtin, row.quantity, row.stockTrafficLight, row.itemType, row.timestamp)
  }

  predicate Distinct<T(==)>(xs: seq<T>) {
    forall i, j :: 0 <= i < j < |xs| ==> xs[i] != xs[j]
  }

  /** The elements of a finite set, each once, in some order: the order of an SQL result without ORDER BY. */
  method Enumerate<T(==)>(s: set<T>) returns (xs: seq<T>)
    ensures |xs| == |s| && Distinct(xs)
    ensures forall x :: x in xs <==> x in s
  {
    xs := [];
    var rest := s;
    while rest != {}
      invariant rest !! set x | x in xs
      invariant forall x :: x in s <==> x in xs || x in rest
      invariant |xs| + |rest| == |s|
      invariant Distinct(xs)
      invariant forall x :: x in xs ==> x in s
      decreases |rest|
    {
      var x :| x in rest;
      rest := rest - {x};
      xs := xs + [x];
    }
  }

  class GtinStockRepository {
    var rows: map<StockKey, StockRow>
    /** Statements executed so far; the oracle `driverError` is indexed by it. */
    var statements: nat
    /** The driver error text of the n-th statement, when it fails for a reason other than a NULL key column. */
    const driverError: nat -> Option<string>

    ghost predicate Valid()
      reads this
    {
      ValidRows(rows)
    }

    constructor (driverError: nat -> Option<string>)
      ensures rows == map[] && statements == 0 && this.driverError == driverError
      ensures Valid()
    {
      rows := map[];
      statements := 0;
      this.driverError := driverError;
    }

    /** The error `save_gtin_stock_item` reports for the statement at position `n`, if any. */
    function SaveError(context: SupplierContext, item: GtinStockItem, n: nat): Option<string> {
      match NullColumn(context, item)
      case Some(column) => Some(NotNullText(column))
      case None => driverError(n)
    }

    /** What `save_gtin_stock_item` returns or raises for the statement at position `n`. */
    function SaveResult(context: SupplierContext, item: GtinStockItem, n: nat): (r: Result<(), Error>)
      ensures r.Failure? <==> SaveError(context, item, n).Some?
      ensures r.Failure? ==>
        r.error.App? && r.error.exception.DatabaseError? &&
        r.error.exception.originalException == SaveError(context, item, n)
    {
      match SaveError(context, item, n)
      case Some(text) => Failure(App(NewDatabaseError("Error saving GTIN stock for " + Str(item.gtin) + ": " + text, Some(text))))
      case None => Success(())
    }

    /** The table after `save_gtin_stock_item`: upserted on success, rolled back (unchanged) on failure. */
    function SavedRows(rows: map<StockKey, StockRow>, context: SupplierContext, item: GtinStockItem, n: nat): (after: map<StockKey, StockRow>)
      ensures SaveError(context, item, n).Some? ==> after == rows
      ensures SaveError(context, item, n).None? ==> NullColumn(context, item).None? && after == Upsert(rows, NewRow(context, item))
      ensures ValidRows(rows) ==> ValidRows(after)
    {
      if SaveError(context, item, n).Some? then rows
      else
        UpsertKeepsKeys(rows, NewRow(context, item));
        Upsert(rows, NewRow(context, item))
    }

    /** `save_gtin_stock_item`. */
    method SaveGtinStockItem(context: SupplierContext, item: GtinStockItem) returns (r: Result<(), Error>)
      requires Valid()
      modifies this
      ensures Valid()
      ensures statements == old(statements) + 1
      ensures r == SaveResult(context, item, old(statements))
      ensures rows == SavedRows(old(rows), context, item, old(statements))
    {
      var failure := SaveError(context, item, statements);
      statements := statements + 1;
      if failure.Some? {
        var text := failure.value;
        return Failure(App(NewDatabaseError("Error saving GTIN stock for " + Str(item.gtin) + ": " + text, Some(text))));
      }
      UpsertKeepsKeys(rows, NewRow(context, item));
      rows := Upsert(rows, NewRow(context, item));
      r := Success(());
    }

    /** The DatabaseError a query raises when the driver rejects it with `text`. */
    static function QueryError(message: string, text: string): (e: Error)
      ensures e.App? && e.exception.DatabaseError? && e.exception.originalException == Some(text)
    {
      App(NewDatabaseError(message + ": " + text, Some(text)))
    }

    /**
     * `get_gtin_stock_by_supplier_context`: one statement; unless the driver
     * rejects it, every row of the supplier and retailer, once, with the
     * context passed in.
     */
    method GetGtinStockBySupplierContext(context: SupplierContext) returns (r: Result<GtinStockResponse, Error>)
      requires Valid()
      modifies this`statements
      ensures statements == old(statements) + 1
      ensures r.Failure? <==> driverError(old(statements)).Some?
      ensures r.Failure? ==>
        r.error == QueryError("Error fetching GTIN stock by supplier GLN " + Str(context.supplierGln), driverError(old(statements)).value)
      ensures r.Success? ==> r.value.supplierContext == context
      ensures r.Success? ==>
        |r.value.stockItems| == |set k | k in rows && k.supplierGln == context.supplierGln && k.retailerGln == context.retailerGln|
      ensures r.Success? ==> forall item :: item in r.value.stockItems <==>
        exists k :: k in rows && k.supplierGln == context.supplierGln && k.retailerGln == context.retailerGln && item == ToItem(rows[k])
      ensures r.Success? ==> Distinct(r.value.stockItems)
    {
      var failure := driverError(statements);
      statements := statements + 1;
      if failure.Some? {
        return Failure(QueryError("Error fetching GTIN stock by supplier GLN " + Str(context.supplierGln), failure.value));
      }
      var items := SupplierItems(context);
      r := Success(GtinStockResponse(context, items));
    }

    /** The rows of the supplier and retailer, each read back as a DTO, in the order the server returns them. */
    method SupplierItems(context: SupplierContext) returns (items: seq<GtinStockItem>)
      requires Valid()
      ensures |items| == |set k | k in rows && k.supplierGln == context.supplierGln && k.retailerGln == context.retailerGln|
      ensures forall item :: item in items <==>
        exists k :: k in rows && k.supplierGln == context.supplierGln && k.retailerGln == context.retailerGln && item == ToItem(rows[k])
      ensures Distinct(items)
    {
      ghost var matching := set k | k in rows && k.supplierGln == context.supplierGln && k.retailerGln == context.retailerGln;
      var keys := Enumerate(set k | k in rows && k.supplierGln == context.supplierGln && k.retailerGln == context.retailerGln);
      assert forall j :: 0 <= j < |keys| ==> keys[j] in matching;
      items := [];
      var i := 0;
      while i < |keys|
        invariant 0 <= i <= |keys|
        invariant |items| == i
        invariant forall j :: 0 <= j < i ==> items[j] == ToItem(rows[keys[j]])
      {
        items := items + [ToItem(rows[keys[i]])];
        i := i + 1;
      }
      forall a, b | 0 <= a < b < |items|
        ensures items[a] != items[b]
      {
        assert keys[a] != keys[b];
        assert KeyOf(rows[keys[a]]) == keys[a] && KeyOf(rows[keys[b]]) == keys[b];
      }
      forall item | item in items
        ensures exists k :: k in rows && k.supplierGln == context.supplierGln && k.retailerGln == context.retailerGln && item == ToItem(rows[k])
      {
        var j :| 0 <= j < |items| && items[j] == item;
        assert keys[j] in keys;
      }
      forall k | k in rows && k.supplierGln == context.supplierGln && k.retailerGln == context.retailerGln
        ensures ToItem(rows[k]) in items
      {
        assert k in matching;
        var j :| 0 <= j < |keys| && keys[j] == k;
        assert items[j] == ToItem(rows[k]);
      }
    }

    /**
     * `get_gtin_stock_by_gtin_and_supplier`: one statement; unless the driver
     * rejects it, None exactly when no row has this GTIN and supplier GLN.
     */
    method GetGtinStockByGtinAndSupplier(gtin: string, supplierGln: Json) returns (r: Result<Option<GtinStockItem>, Error>)
      modifies this`statements
      ensures statements == old(statements) + 1
      ensures r.Failure? <==> driverError(old(statements)).Some?
      ensures r.Failure? ==>
        r.error == QueryError("Error fetching GTIN stock for GTIN " + gtin + ", Supplier GLN " + Str(supplierGln), driverError(old(statements)).value)
      ensures r.Success? ==> (r.value.None? <==> !exists k :: k in rows && k.gtin == JStr(gtin) && k.supplierGln == supplierGln)
      ensures r.Success? && r.value.Some? ==>
        exists k :: k in rows && k.gtin == JStr(gtin) && k.supplierGln == supplierGln && r.value.value == ToItem(rows[k])
    {
      var failure := driverError(statements);
      statements := statements + 1;
      if failure.Some? {
        return Failure(QueryError("Error fetching GTIN stock for GTIN " + gtin + ", Supplier GLN " + Str(supplierGln), failure.value));
      }
      if k :| k in rows && k.gtin == JStr(gtin) && k.supplierGln == supplierGln {
        r := Success(Some(ToItem(rows[k])));
      } else {
        r := Success(None);
      }
    }

    /** `get_all_gtin_codes`: one statement; unless the driver rejects it, every non-empty GTIN of the table, once. */
    method GetAllGtinCodes() returns (r: Result<seq<Json>, Error>)
      modifies this`statements
      ensures statements == old(statements) + 1
      ensures r.Failure? <==> driverError(old(statements)).Some?
      ensures r.Failure? ==> r.error == QueryError("Error fetching GTIN codes", driverError(old(statements)).value)
      ensures r.Success? ==> Distinct(r.value)
      ensures r.Success? ==> forall g :: g in r.value <==> g != JNull && g != JStr("") && exists k :: k in rows && k.gtin == g
    {
      var failure := driverError(statements);
      statements := statements + 1;
      if failure.Some? {
        return Failure(QueryError("Error fetching GTIN codes", failure.value));
      }
      var gtins := Enumerate(set k | k in rows && k.gtin != JNull && k.gtin != JStr("") :: k.gtin);
      r := Success(gtins);
    }

    /** `get_unique_supplier_glns`: one statement; unless the driver rejects it, every supplier GLN other than NULL and the empty string, once. */
    method GetUniqueSupplierGlns() returns (r: Result<seq<Json>, Error>)
      modifies this`statements
      ensures statements == old(statements) + 1
      ensures r.Failure? <==> driverError(old(statements)).Some?
      ensures r.Failure? ==> r.error == QueryError("Error fetching supplier GLNs", driverError(old(statements)).value)
      ensures r.Success? ==> Distinct(r.value)
      ensures r.Success? ==> forall g :: g in r.value <==> g != JNull && g != JStr("") && exists k :: k in rows && k.supplierGln == g
    {
      var failure := driverError(statements);
      statements := statements + 1;
      if failure.Some? {
        return Failure(QueryError("Error fetching supplier GLNs", failure.value));
      }
      var glns := Enumerate(set k | k in rows && k.supplierGln != JNull && k.supplierGln != JStr("") :: k.supplierGln);
      r := Success(glns);
    }

    /** `get_all_supplier_gtin_pairs`: one statement; unless the driver rejects it, every (supplier GLN, GTIN) pair with both parts non-empty, once. */
    method GetAllSupplierGtinPairs() returns (r: Result<seq<(Json, Json)>, Error>)
      modifies this`statements
      ensures statements == old(statements) + 1
      ensures r.Failure? <==> driverError(old(statements)).Some?
      ensures r.Failure? ==> r.error == QueryError("Error fetching all supplier GLN and GTIN pairs", driverError(old(statements)).value)
      ensures r.Success? ==> Distinct(r.value)
      ensures r.Success? ==> forall p :: p in r.value <==>
        p.0 != JNull && p.0 != JStr("") && p.1 != JNull && p.1 != JStr("") &&
        exists k :: k in rows && k.supplierGln == p.0 && k.gtin == p.1
    {
      var failure := driverError(statements);
      statements := statements + 1;
      if failure.Some? {
        return Failure(QueryError("Error fetching all supplier GLN and GTIN pairs", failure.value));
      }
      var pairs := Enumerate(set k | k in rows && k.supplierGln != JNull && k.supplierGln != JStr("") &&
                                     k.gtin != JNull && k.gtin != JStr("") :: (k.supplierGln, k.gtin));
      r := Success(pairs);
    }
  }
}

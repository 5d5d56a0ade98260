/**
 * GlobalStockApiClient: GTIN discovery for a supplier, per-GTIN availability
 * lookup, mapping of the `stocksQueryResult` entries into GtinStockItemDTOs,
 * and the sequential batch loop with its save callback.
 *
 * The HTTP endpoints and the ISO-8601 parser are oracles fixed when the
 * client is built; the requests the client makes and the batches it hands to
 * the callback are recorded, in order, in the ghost log `effects`.
 */
module GlobalStockClient {
  import opened Wrappers
  import opened JsonModel
  import opened Exceptions
  import opened PyJson
  import opened StockDtos
  import Batching
  import Text
  import opened SeqFacts
  import opened ResultSeq

  /** How the availability request for one GTIN ended. */
  datatype AvailabilityReply =
      /** The decoded body, whatever JSON value it is. */
    | Decoded(body: Json)
    | TimedOut
      /** Any other requests exception: connection error, error status, undecodable body. */
    | RequestFailed

  /** How the discovery request for a supplier ended. */
  datatype DiscoveryReply =
      /** The decoded body, whatever JSON value it is; the API promises a list of GTINs. */
    | Listed(body: Json)
    | DiscoveryTimedOut(text: string)
      /** Any other requests exception, with the status of the response attached to it, if any. */
    | DiscoveryFailed(text: string, responseStatus: Option<int>)

  /** The client's external effects, in the order they happen. */
  datatype Effect =
    | DiscoveryRequested(supplierGln: Json)
    | AvailabilityRequested(gtin: Json, supplierGln: Json)
    | BatchHandedOver(context: SupplierContext, items: seq<GtinStockItem>)

  const MissingTokenText: string := "EAN_AVAILABILITY_API_TOKEN is not set in environment variables."
  const DiscoveryTimeoutText: string := "API request for GTINs with stock timed out: "
  const DiscoveryErrorText: string := "Error fetching GTINs with stock from API: "
  const ZeroStepText: string := "range() arg 3 must not be zero"
  /** What slicing a dict raises (Python before 3.12). */
  const SliceText: string := "unhashable type: 'slice'"
  const StocksKey: string := "stocksQueryResult"
  /** The batch size `fetch_gtin_stock_data` passes on. */
  const LegacyBatchSize: int := 100

  /**
   * The "Status code" part of the discovery error message: the code of the
   * response attached to the exception, or "N/A" when there is none.
   */
  function StatusText(responseStatus: Option<int>): (s: string)
    ensures responseStatus.None? <==> s == "N/A"
    ensures responseStatus.Some? ==> Text.ParseInt(s) == responseStatus.value
  {
    if responseStatus.Some? then
      Text.IntRoundTrip(responseStatus.value);
      Text.IntToString(responseStatus.value)
    else "N/A"
  }

  /**
   * The same part as the client writes it: `e.response` is tested for
   * truthiness, and a `requests` Response is falsy when its status is 400..599.
   */
  function StatusTextAsWritten(responseStatus: Option<int>): string {
    if responseStatus.Some? && !(400 <= responseStatus.value < 600) then Text.IntToString(responseStatus.value) else "N/A"
  }

  /** For an HTTP 404 the message written by the client says "N/A", not the status. */
  lemma StatusTextAsWrittenHidesErrorStatus()
    ensures StatusTextAsWritten(Some(404)) == "N/A"
    ensures StatusText(Some(404)) != "N/A"
  {
  }

  /**
   * The item type of an entry: "Pair" when its type equals 1 (a JSON `true`
   * does too, as `True == 1` in Python), "Set" for anything else, a missing
   * type included.
   */
  function ItemType(typeCode: Json): (t: string)
    ensures t == "Pair" <==> typeCode == JInt(1) || typeCode == JBool(true)
    ensures t == "Pair" || t == "Set"
  {
    if typeCode == JInt(1) || typeCode == JBool(true) then "Pair" else "Set"
  }

  /**
   * The entry's timestamp: None when missing or falsy; for a str, the ISO
   * parse of the text with "Z" replaced by "+00:00", whose failure raises
   * ValueError; any other truthy value has no `replace` and raises
   * AttributeError.
   */
  function EntryTimestamp(raw: Json, parseIso: string -> Option<Timestamp>): (r: Result<Option<Timestamp>, Error>)
    ensures !Truthy(raw) ==> r == Success(None)
    ensures r.Success? && r.value.Some? ==> raw.JStr? && parseIso(Text.ReplaceZ(raw.s)) == r.value
    ensures r.Failure? <==> Truthy(raw) && (!raw.JStr? || parseIso(Text.ReplaceZ(raw.s)).None?)
    ensures r.Failure? ==> r.error.Builtin? && (r.error.kind == AttributeError <==> !raw.JStr?)
  {
    if !Truthy(raw) then Success(None)
    else if !raw.JStr? then Failure(Builtin(AttributeError, "'" + TypeName(raw) + "' object has no attribute 'replace'"))
    else
      var text := Text.ReplaceZ(raw.s);
      match parseIso(text)
      case Some(t) => Success(Some(t))
      case None => Failure(Builtin(ValueError, "Invalid isoformat string: " + StrRepr(text)))
  }

  /**
   * One `stocksQueryResult` entry as a GtinStockItemDTO: an entry that is not
   * a dict has no `get`; a dict's GTIN, quantity and traffic light are taken
   * as they are.
   */
  function MapEntry(e: Json, parseIso: string -> Option<Timestamp>): (r: Result<GtinStockItem, Error>)
    ensures !e.JObj? ==> r == Failure(NoGet(e))
    ensures e.JObj? ==> (r.Success? <==> EntryTimestamp(Get(e.fields, "timestamp"), parseIso).Success?)
    ensures e.JObj? && r.Failure? ==> r.error == EntryTimestamp(Get(e.fields, "timestamp"), parseIso).error
    ensures r.Success? ==>
      e.JObj? &&
      r.value.gtin == Get(e.fields, "gtin") && r.value.quantity == Get(e.fields, "quantity") &&
      r.value.stockTrafficLight == Get(e.fields, "stockTrafficLight") &&
      r.value.itemType == Some(ItemType(Get(e.fields, "type"))) &&
      r.value.timestamp == EntryTimestamp(Get(e.fields, "timestamp"), parseIso).value
  {
    if !e.JObj? then Failure(NoGet(e))
    else
      var fs := e.fields;
      match EntryTimestamp(Get(fs, "timestamp"), parseIso)
      case Failure(err) => Failure(err)
      case Success(ts) =>
        Success(GtinStockItem(Get(fs, "gtin"), Get(fs, "quantity"), Get(fs, "stockTrafficLight"), Some(ItemType(Get(fs, "type"))), ts))
  }

  /** The mapping the entry loop applies, for the client's ISO parser. */
  function EntryReader(parseIso: string -> Option<Timestamp>): Json -> Result<GtinStockItem, Error> {
    e => MapEntry(e, parseIso)
  }

  /**
   * The items of one decoded availability answer: none unless
   * `"stocksQueryResult" in result`; then `result["stocksQueryResult"]` is
   * read and every entry of it mapped, in order. A body or value of the
   * wrong type raises.
   */
  function BodyItems(body: Json, parseIso: string -> Option<Timestamp>): (r: Result<seq<GtinStockItem>, Error>)
    ensures !Sized(body) ==> r.Failure? && r.error.Builtin? && r.error.kind == TypeError
    ensures body.JObj? && Lookup(body.fields, StocksKey).None? ==> r == Success([])
    ensures body.JObj? && Lookup(body.fields, StocksKey) == Some(JNull) ==> r == Failure(NotIterable(JNull))
    ensures body.JObj? && Lookup(body.fields, StocksKey).Some? && Lookup(body.fields, StocksKey).value.JArr? ==>
      r == MapAll(EntryReader(parseIso), Lookup(body.fields, StocksKey).value.items)
    ensures (body.JArr? || body.JStr?) ==> r == Success([]) || r.Failure?
    ensures r.Success? && r.value != [] ==>
      body.JObj? && Lookup(body.fields, StocksKey).Some? && Elements(Lookup(body.fields, StocksKey).value).Some?
  {
    match Contains(body, StocksKey)
    case Failure(err) => Failure(err)
    case Success(present) =>
      if !present then Success([])
      else match Subscript(body, StocksKey)
        case Failure(err) => Failure(err)
        case Success(entries) =>
          match Elements(entries)
          case None => Failure(NotIterable(entries))
          case Some(es) => MapAll(EntryReader(parseIso), es)
  }

  /**
   * What `for gtin in gtins[i : i + batch_size]` visits for each `i` of
   * `range(0, len(gtins), batch_size)`: a list is cut into lists, a str
   * into strs whose loop visits characters; slicing a non-empty dict
   * raises TypeError, and an empty one is never sliced.
   */
  function GtinBatches(body: Json, batchSize: int): (r: Result<seq<seq<Json>>, Error>)
    requires Sized(body) && batchSize != 0
    ensures r.Failure? <==> body.JObj? && body.fields != [] && batchSize > 0
    ensures r.Failure? ==> r.error == Builtin(TypeError, SliceText)
    ensures !body.JObj? ==> r == Success(Batching.Batches(Elements(body).value, batchSize))
    ensures body.JObj? && r.Success? ==> r.value == [] && (batchSize > 0 ==> Elements(body).value == [])
  {
    if body.JObj? then
      if body.fields != [] && batchSize > 0 then Failure(Builtin(TypeError, SliceText)) else Success([])
    else Success(Batching.Batches(Elements(body).value, batchSize))
  }

  /**
   * The state of a loop over GTINs or batches: the items so far or the
   * exception that ended it, the GTINs counted, the effects and the item
   * lists handed to the callback.
   */
  datatype Progress = Progress(
    result: Result<seq<GtinStockItem>, Error>,
    consumed: nat,
    effects: seq<Effect>,
    handed: seq<seq<GtinStockItem>>)

  const Start: Progress := Progress(Success([]), 0, [], [])

  /** The outcome of a whole `fetch_gtin_stock_data_optimized` call; `counter` is None when the counter was not reset. */
  datatype FetchRun = FetchRun(
    result: Result<GtinStockResponse, Error>,
    counter: Option<nat>,
    effects: seq<Effect>,
    handed: seq<seq<GtinStockItem>>)

  class GlobalStockApiClient {
    const baseUrl: string
    const token: Option<string>
    const retailerGln: string
    /** The articlesWithStock endpoint, for a supplier GLN. */
    const discover: Json -> DiscoveryReply
    /** The availabilities endpoint, for a GTIN and a supplier GLN. */
    const lookUp: (Json, Json) -> AvailabilityReply
    /** `datetime.fromisoformat`. */
    const parseIso: string -> Option<Timestamp>

    /** `_processed_count`. */
    var processedCount: int
    ghost var effects: seq<Effect>

    constructor (baseUrl: string, token: Option<string>, retailerGln: string,
                 discover: Json -> DiscoveryReply, lookUp: (Json, Json) -> AvailabilityReply,
                 parseIso: string -> Option<Timestamp>)
      ensures this.baseUrl == baseUrl && this.token == token && this.retailerGln == retailerGln
      ensures this.discover == discover && this.lookUp == lookUp && this.parseIso == parseIso
      ensures processedCount == 0 && effects == []
    {
      this.baseUrl := baseUrl;
      this.token := token;
      this.retailerGln := retailerGln;
      this.discover := discover;
      this.lookUp := lookUp;
      this.parseIso := parseIso;
      processedCount := 0;
      effects := [];
    }

    /** `if not self.token`: None and "" both count as missing. */
    predicate HasToken() {
      token.Some? && token.value != ""
    }

    function MissingToken(): Error {
      App(NewApiError(MissingTokenText, None, None))
    }

    /**
     * What `get_gtins_with_stock` returns or raises: the decoded body as it
     * is, or an APIError whose "Status code" part is written as the client
     * writes it.
     */
    function DiscoveryResult(supplierGln: Json): (r: Result<Json, Error>)
      ensures !HasToken() ==> r == Failure(MissingToken())
      ensures r.Failure? ==> r.error.App? && r.error.exception.ApiError?
      ensures r.Success? <==> HasToken() && discover(supplierGln).Listed?
      ensures r.Success? ==> r.value == discover(supplierGln).body
    {
      if !HasToken() then Failure(MissingToken())
      else match discover(supplierGln)
        case Listed(body) => Success(body)
        case DiscoveryTimedOut(text) => Failure(App(NewApiError(DiscoveryTimeoutText + text, None, None)))
        case DiscoveryFailed(text, status) =>
          Failure(App(NewApiError(DiscoveryErrorText + text + ". Status code: " + StatusTextAsWritten(status), None, None)))
    }

    function DiscoveryEffect(supplierGln: Json): seq<Effect> {
      if HasToken() then [DiscoveryRequested(supplierGln)] else []
    }

    /**
     * What `get_gtin_availability` returns or raises: the decoded body, or
     * the `{}` returned on a timeout or another request error.
     */
    function AvailabilityResult(gtin: Json, supplierGln: Json): (r: Result<Json, Error>)
      ensures !HasToken() ==> r == Failure(MissingToken())
      ensures HasToken() && lookUp(gtin, supplierGln).Decoded? ==> r == Success(lookUp(gtin, supplierGln).body)
      ensures HasToken() && !lookUp(gtin, supplierGln).Decoded? ==> r == Success(JObj([]))
    {
      if !HasToken() then Failure(MissingToken())
      else match lookUp(gtin, supplierGln)
        case Decoded(body) => Success(body)
        case _ => Success(JObj([]))
    }

    function RequestEffect(gtin: Json, supplierGln: Json): seq<Effect> {
      if HasToken() then [AvailabilityRequested(gtin, supplierGln)] else []
    }

    /**
     * The items one GTIN contributes: none for a failed request, otherwise
     * those of the decoded answer.
     */
    function GtinResult(gtin: Json, supplierGln: Json): (r: Result<seq<GtinStockItem>, Error>)
      ensures !HasToken() ==> r == Failure(MissingToken())
      ensures HasToken() && !lookUp(gtin, supplierGln).Decoded? ==> r == Success([])
      ensures HasToken() && lookUp(gtin, supplierGln).Decoded? ==> r == BodyItems(lookUp(gtin, supplierGln).body, parseIso)
      ensures r.Success? ==> RequestEffect(gtin, supplierGln) == [AvailabilityRequested(gtin, supplierGln)]
    {
      match AvailabilityResult(gtin, supplierGln)
      case Failure(err) => Failure(err)
      case Success(body) => BodyItems(body, parseIso)
    }

    /** The items so far followed by one more GTIN's items, or that GTIN's exception. */
    static function Extend(acc: seq<GtinStockItem>, r: Result<seq<GtinStockItem>, Error>): Result<seq<GtinStockItem>, Error> {
      if r.Failure? then Failure(r.error) else Success(acc + r.value)
    }

    /** One more GTIN of `_process_gtin_batch`, unless an exception already ended the loop. */
    static function GtinStep(p: Progress, r: Result<seq<GtinStockItem>, Error>, requested: seq<Effect>): Progress {
      if p.result.Failure? then p
      else Progress(Extend(p.result.value, r), p.consumed + 1, p.effects + requested, p.handed)
    }

    /** `_process_gtin_batch` over `gtins`. */
    function GtinsRun(gtins: seq<Json>, supplierGln: Json): (p: Progress)
      ensures p.handed == [] && p.consumed <= |gtins|
      decreases |gtins|
    {
      if gtins == [] then Start
      else
        var gtin := gtins[|gtins| - 1];
        GtinStep(GtinsRun(gtins[..|gtins| - 1], supplierGln), GtinResult(gtin, supplierGln), RequestEffect(gtin, supplierGln))
    }

    static function HandOver(context: SupplierContext, items: seq<GtinStockItem>, withCallback: bool): seq<seq<GtinStockItem>> {
      if withCallback && items != [] then [items] else []
    }

    static function HandOverEffect(context: SupplierContext, items: seq<GtinStockItem>, withCallback: bool): seq<Effect> {
      if withCallback && items != [] then [BatchHandedOver(context, items)] else []
    }

    /** One more batch of the sequential loop, unless an exception already ended it. */
    static function BatchStep(p: Progress, b: Progress, context: SupplierContext, withCallback: bool): Progress {
      if p.result.Failure? then p
      else
        if b.result.Failure? then Progress(Failure(b.result.error), p.consumed + b.consumed, p.effects + b.effects, p.handed)
        else
          Progress(Success(p.result.value + b.result.value), p.consumed + b.consumed,
                   p.effects + b.effects + HandOverEffect(context, b.result.value, withCallback),
                   p.handed + HandOver(context, b.result.value, withCallback))
    }

    /** The sequential branch of `fetch_gtin_stock_data_optimized` over the batches. */
    function BatchesRun(context: SupplierContext, batches: seq<seq<Json>>, withCallback: bool): Progress
      decreases |batches|
    {
      if batches == [] then Start
      else BatchStep(BatchesRun(context, batches[..|batches| - 1], withCallback),
                     GtinsRun(batches[|batches| - 1], context.supplierGln), context, withCallback)
    }

    function ToResponse(context: SupplierContext, r: Result<seq<GtinStockItem>, Error>): Result<GtinStockResponse, Error> {
      match r
      case Failure(err) => Failure(err)
      case Success(items) => Success(GtinStockResponse(context, items))
    }

    /**
     * `fetch_gtin_stock_data_optimized` with one worker: discovery, `len` of
     * what was discovered, counter reset, slicing into batches, then the
     * batches in order.
     */
    function FetchSpec(context: SupplierContext, batchSize: int, withCallback: bool): (f: FetchRun)
      ensures f.result.Success? ==> f.result.value.supplierContext == context
      ensures f.result.Success? ==>
        DiscoveryResult(context.supplierGln).Success? && Sized(DiscoveryResult(context.supplierGln).value)
      ensures DiscoveryResult(context.supplierGln).Failure? ==> f.counter.None? && f.handed == []
    {
      var discovery := DiscoveryEffect(context.supplierGln);
      match DiscoveryResult(context.supplierGln)
      case Failure(err) => FetchRun(Failure(err), None, discovery, [])
      case Success(gtins) =>
        if !Sized(gtins) then FetchRun(Failure(NoLen(gtins)), None, discovery, [])
        else if batchSize == 0 then FetchRun(Failure(Builtin(ValueError, ZeroStepText)), Some(0), discovery, [])
        else match GtinBatches(gtins, batchSize)
          case Failure(err) => FetchRun(Failure(err), Some(0), discovery, [])
          case Success(batches) =>
            var p := BatchesRun(context, batches, withCallback);
            FetchRun(ToResponse(context, p.result), Some(p.consumed), discovery + p.effects, p.handed)
    }

    /** A batch that raises ends the loop with what was handed over before it. */
    static lemma BatchStepFails(p: Progress, b: Progress, context: SupplierContext, withCallback: bool)
      requires p.result.Success? && b.result.Failure?
      ensures BatchStep(p, b, context, withCallback) == Progress(b.result, p.consumed + b.consumed, p.effects + b.effects, p.handed)
    {
    }

    /** A batch without an exception adds its items, its count, its effects and the callback call. */
    static lemma BatchStepSucceeds(p: Progress, b: Progress, context: SupplierContext, withCallback: bool)
      requires p.result.Success? && b.result.Success?
      ensures var q := BatchStep(p, b, context, withCallback);
        q.result == Success(p.result.value + b.result.value) && q.consumed == p.consumed + b.consumed &&
        q.effects == p.effects + b.effects + HandOverEffect(context, b.result.value, withCallback) &&
        q.handed == p.handed + HandOver(context, b.result.value, withCallback)
    {
    }

    lemma {:induction false} GtinsRunSticky(gtins: seq<Json>, i: nat, supplierGln: Json)
      requires i <= |gtins|
      requires GtinsRun(gtins[..i], supplierGln).result.Failure?
      ensures GtinsRun(gtins, supplierGln) == GtinsRun(gtins[..i], supplierGln)
      decreases |gtins| - i
    {
      if i < |gtins| {
        PrefixStep(gtins, i);
        GtinsRunSticky(gtins, i + 1, supplierGln);
      } else {
        Whole(gtins);
      }
    }

    lemma {:induction false} BatchesRunSticky(context: SupplierContext, batches: seq<seq<Json>>, i: nat, withCallback: bool)
      requires i <= |batches|
      requires BatchesRun(context, batches[..i], withCallback).result.Failure?
      ensures BatchesRun(context, batches, withCallback) == BatchesRun(context, batches[..i], withCallback)
      decreases |batches| - i
    {
      if i < |batches| {
        PrefixStep(batches, i);
        BatchesRunSticky(context, batches, i + 1, withCallback);
      } else {
        Whole(batches);
      }
    }

    lemma GtinsRunSnoc(gtins: seq<Json>, j: nat, supplierGln: Json)
      requires j < |gtins|
      ensures GtinsRun(gtins[..j + 1], supplierGln) ==
        GtinStep(GtinsRun(gtins[..j], supplierGln), GtinResult(gtins[j], supplierGln), RequestEffect(gtins[j], supplierGln))
    {
      PrefixStep(gtins, j);
    }

    lemma BatchesRunSnoc(context: SupplierContext, batches: seq<seq<Json>>, i: nat, withCallback: bool)
      requires i < |batches|
      ensures BatchesRun(context, batches[..i + 1], withCallback) ==
        BatchStep(BatchesRun(context, batches[..i], withCallback), GtinsRun(batches[i], context.supplierGln), context, withCallback)
    {
      PrefixStep(batches, i);
    }

    /**
     * One more batch of the sequential loop after a prefix that raised
     * nothing: its count, its effects, and either the items it adds or the
     * exception that ends the whole loop.
     */
    lemma BatchesRunNext(context: SupplierContext, batches: seq<seq<Json>>, i: nat, withCallback: bool, before: seq<Effect>)
      requires i < |batches| && BatchesRun(context, batches[..i], withCallback).result.Success?
      ensures var p := BatchesRun(context, batches[..i], withCallback);
        var b := GtinsRun(batches[i], context.supplierGln);
        var q := BatchesRun(context, batches[..i + 1], withCallback);
        q.consumed == p.consumed + b.consumed &&
        (b.result.Failure? ==>
          q.result == b.result && before + q.effects == before + p.effects + b.effects + [] &&
          BatchesRun(context, batches, withCallback) == q) &&
        (b.result.Success? ==>
          q.result == Success(p.result.value + b.result.value) &&
          before + q.effects == before + p.effects + b.effects + HandOverEffect(context, b.result.value, withCallback))
    {
      var p := BatchesRun(context, batches[..i], withCallback);
      var b := GtinsRun(batches[i], context.supplierGln);
      BatchesRunSnoc(context, batches, i, withCallback);
      if b.result.Failure? {
        BatchStepFails(p, b, context, withCallback);
        Associative(before, p.effects, b.effects);
        assert before + p.effects + b.effects + [] == before + p.effects + b.effects;
        BatchesRunSticky(context, batches, i + 1, withCallback);
      } else {
        BatchStepSucceeds(p, b, context, withCallback);
        var h := HandOverEffect(context, b.result.value, withCallback);
        Associative(before, p.effects, b.effects);
        Associative(before, p.effects + b.effects, h);
        Associative(p.effects, b.effects, h);
      }
    }

    /** `get_gtins_with_stock`. */
    method GetGtinsWithStock(supplierGln: Json) returns (r: Result<Json, Error>)
      modifies this`effects
      ensures r == DiscoveryResult(supplierGln)
      ensures effects == old(effects) + DiscoveryEffect(supplierGln)
    {
      if !HasToken() {
        return Failure(MissingToken());
      }
      effects := effects + [DiscoveryRequested(supplierGln)];
      match discover(supplierGln)
      case Listed(body) =>
        r := Success(body);
      case DiscoveryTimedOut(text) =>
        r := Failure(App(NewApiError(DiscoveryTimeoutText + text, None, None)));
      case DiscoveryFailed(text, status) =>
        r := Failure(App(NewApiError(DiscoveryErrorText + text + ". Status code: " + StatusTextAsWritten(status), None, None)));
    }

    /** `get_gtin_availability`. */
    method GetGtinAvailability(gtin: Json, supplierGln: Json) returns (r: Result<Json, Error>)
      modifies this`effects
      ensures r == AvailabilityResult(gtin, supplierGln)
      ensures effects == old(effects) + RequestEffect(gtin, supplierGln)
    {
      if !HasToken() {
        return Failure(MissingToken());
      }
      effects := effects + [AvailabilityRequested(gtin, supplierGln)];
      match lookUp(gtin, supplierGln)
      case Decoded(body) =>
        r := Success(body);
      case TimedOut =>
        r := Success(JObj([]));
      case RequestFailed =>
        r := Success(JObj([]));
    }

    /** The inner loop of `_process_gtin_batch`: the entries of one answer, mapped in order. */
    method MapStockEntries(entries: seq<Json>) returns (r: Result<seq<GtinStockItem>, Error>)
      ensures r == MapAll(EntryReader(parseIso), entries)
    {
      var mapped: seq<GtinStockItem> := [];
      var k := 0;
      while k < |entries|
        invariant 0 <= k <= |entries|
        invariant MapAll(EntryReader(parseIso), entries[..k]) == Success(mapped)
      {
        MapAllSnoc(EntryReader(parseIso), entries, k);
        var item := MapEntry(entries[k], parseIso);
        if item.Failure? {
          MapAllSticky(EntryReader(parseIso), entries, k + 1);
          return Failure(item.error);
        }
        mapped := mapped + [item.value];
        k := k + 1;
      }
      Whole(entries);
      r := Success(mapped);
    }

    /** `if "stocksQueryResult" not in result: continue` and the loop over `result["stocksQueryResult"]`. */
    method ReadStockEntries(result: Json) returns (items: Result<seq<GtinStockItem>, Error>)
      ensures items == BodyItems(result, parseIso)
    {
      var present := Contains(result, StocksKey);
      if present.Failure? {
        return Failure(present.error);
      }
      if !present.value {
        return Success([]);
      }
      var entries := Subscript(result, StocksKey);
      if entries.Failure? {
        return Failure(entries.error);
      }
      match Elements(entries.value)
      case None =>
        items := Failure(NotIterable(entries.value));
      case Some(es) =>
        items := MapStockEntries(es);
    }

    /** The body of `_process_gtin_batch`'s loop for one GTIN, after the counter. */
    method FetchGtinItems(gtin: Json, supplierGln: Json) returns (items: Result<seq<GtinStockItem>, Error>)
      modifies this`effects
      ensures items == GtinResult(gtin, supplierGln)
      ensures effects == old(effects) + RequestEffect(gtin, supplierGln)
    {
      var answer := GetGtinAvailability(gtin, supplierGln);
      if answer.Failure? {
        items := Failure(answer.error);
      } else {
        items := ReadStockEntries(answer.value);
      }
    }

    /** `_process_gtin_batch`: counts, requests and maps every GTIN of the batch, in order. */
    method ProcessGtinBatch(batch: seq<Json>, supplierGln: Json) returns (r: Result<seq<GtinStockItem>, Error>)
      modifies this`processedCount, this`effects
      ensures var p := GtinsRun(batch, supplierGln);
        r == p.result && processedCount == old(processedCount) + p.consumed &&
        effects == old(effects) + p.effects
    {
      var fetched: seq<GtinStockItem> := [];
      ghost var run := Start;
      var j := 0;
      while j < |batch|
        invariant 0 <= j <= |batch|
        invariant run == GtinsRun(batch[..j], supplierGln)
        invariant run.result == Success(fetched) && run.consumed == j
        invariant processedCount == old(processedCount) + j
        invariant effects == old(effects) + run.effects
      {
        var gtin := batch[j];
        processedCount := processedCount + 1;
        var items := FetchGtinItems(gtin, supplierGln);
        GtinsRunSnoc(batch, j, supplierGln);
        Associative(old(effects), run.effects, RequestEffect(gtin, supplierGln));
        if items.Failure? {
          GtinsRunSticky(batch, j + 1, supplierGln);
          return Failure(items.error);
        }
        fetched := fetched + items.value;
        run := GtinStep(run, items, RequestEffect(gtin, supplierGln));
        j := j + 1;
      }
      Whole(batch);
      r := Success(fetched);
    }

    /**
     * The sequential branch (`max_workers == 1`) of
     * `fetch_gtin_stock_data_optimized`; `withCallback` says whether a save
     * callback is given. What the callback does is outside the client: its
     * result is ignored and what it raises is only logged.
     */
    method FetchGtinStockDataOptimized(context: SupplierContext, batchSize: int, withCallback: bool)
      returns (r: Result<GtinStockResponse, Error>)
      modifies this`processedCount, this`effects
      ensures var f := FetchSpec(context, batchSize, withCallback);
        r == f.result &&
        processedCount == (if f.counter.Some? then f.counter.value else old(processedCount)) &&
        effects == old(effects) + f.effects
    {
      var discovered := GetGtinsWithStock(context.supplierGln);
      if discovered.Failure? {
        return Failure(discovered.error);
      }
      var gtins := discovered.value;
      if !Sized(gtins) {
        return Failure(NoLen(gtins));
      }
      processedCount := 0;
      if batchSize == 0 {
        return Failure(Builtin(ValueError, ZeroStepText));
      }
      var sliced := GtinBatches(gtins, batchSize);
      if sliced.Failure? {
        return Failure(sliced.error);
      }
      var gtinBatches := sliced.value;
      var allItems := ProcessBatches(context, gtinBatches, withCallback);
      Associative(old(effects), DiscoveryEffect(context.supplierGln), BatchesRun(context, gtinBatches, withCallback).effects);
      r := ToResponse(context, allItems);
    }

    /** The batches of the sequential branch, in order; the first exception ends the loop. */
    method ProcessBatches(context: SupplierContext, gtinBatches: seq<seq<Json>>, withCallback: bool)
      returns (r: Result<seq<GtinStockItem>, Error>)
      modifies this`processedCount, this`effects
      ensures var p := BatchesRun(context, gtinBatches, withCallback);
        r == p.result && processedCount == old(processedCount) + p.consumed &&
        effects == old(effects) + p.effects
    {
      var allItems: seq<GtinStockItem> := [];
      ghost var run := Start;
      var i := 0;
      while i < |gtinBatches|
        invariant 0 <= i <= |gtinBatches|
        invariant run == BatchesRun(context, gtinBatches[..i], withCallback)
        invariant run.result == Success(allItems)
        invariant processedCount == old(processedCount) + run.consumed
        invariant effects == old(effects) + run.effects
      {
        ghost var b := GtinsRun(gtinBatches[i], context.supplierGln);
        var batchItems := ProcessBatch(context, gtinBatches[i], withCallback);
        BatchesRunNext(context, gtinBatches, i, withCallback, old(effects));
        if batchItems.Failure? {
          return Failure(batchItems.error);
        }
        allItems := allItems + batchItems.value;
        run := BatchesRun(context, gtinBatches[..i + 1], withCallback);
        i := i + 1;
      }
      Whole(gtinBatches);
      r := Success(allItems);
    }

    /** One batch of the sequential loop: its GTINs, then, unless they raised, the callback call. */
    method ProcessBatch(context: SupplierContext, batch: seq<Json>, withCallback: bool)
      returns (batchItems: Result<seq<GtinStockItem>, Error>)
      modifies this`processedCount, this`effects
      ensures var b := GtinsRun(batch, context.supplierGln);
        batchItems == b.result && processedCount == old(processedCount) + b.consumed &&
        effects == old(effects) + b.effects + (if b.result.Success? then HandOverEffect(context, b.result.value, withCallback) else [])
    {
      batchItems := ProcessGtinBatch(batch, context.supplierGln);
      if batchItems.Success? {
        HandOverBatch(context, batchItems.value, withCallback);
      } else {
        assert effects + [] == effects;
      }
    }

    /** The callback call after a batch: only with a callback and only for a non-empty item list. */
    method HandOverBatch(context: SupplierContext, items: seq<GtinStockItem>, withCallback: bool)
      modifies this`effects
      ensures effects == old(effects) + HandOverEffect(context, items, withCallback)
    {
      if withCallback && items != [] {
        effects := effects + [BatchHandedOver(context, items)];
      }
    }

    /** `fetch_gtin_stock_data`: batches of 100, one worker, no callback. */
    method FetchGtinStockData(context: SupplierContext) returns (r: Result<GtinStockResponse, Error>)
      modifies this`processedCount, this`effects
      ensures var f := FetchSpec(context, LegacyBatchSize, false);
        r == f.result &&
        processedCount == (if f.counter.Some? then f.counter.value else old(processedCount)) &&
        effects == old(effects) + f.effects
    {
      r := FetchGtinStockDataOptimized(context, LegacyBatchSize, false);
    }
  }
}

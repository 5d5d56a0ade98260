/**
 * What a sequential fetch promises as a whole: the batch size changes how the
 * work is sliced and nothing else, every discovered GTIN is requested exactly
 * once, and the callback sees exactly the items returned, batch by batch.
 */
module StockFetchProperties {
  import opened Wrappers
  import opened JsonModel
  import opened Exceptions
  import opened PyJson
  import opened ResultSeq
  import opened StockDtos
  import opened GlobalStockClient
  import Batching
  import opened SeqFacts

  /** The GTINs whose availability was requested, in order. */
  function Requests(es: seq<Effect>): seq<Json>
    decreases |es|
  {
    if es == [] then []
    else Requests(es[..|es| - 1]) + (if es[|es| - 1].AvailabilityRequested? then [es[|es| - 1].gtin] else [])
  }

  /** The item lists handed to the save callback, in order. */
  function HandedOver(es: seq<Effect>): seq<seq<GtinStockItem>>
    decreases |es|
  {
    if es == [] then []
    else HandedOver(es[..|es| - 1]) + (if es[|es| - 1].BatchHandedOver? then [es[|es| - 1].items] else [])
  }

  /** The callback calls, each with the context it was given and its item list, in order. */
  function Calls(es: seq<Effect>): seq<Effect>
    decreases |es|
  {
    if es == [] then []
    else Calls(es[..|es| - 1]) + (if es[|es| - 1].BatchHandedOver? then [es[|es| - 1]] else [])
  }

  /** The effects other than callback calls. */
  function WithoutHandovers(es: seq<Effect>): seq<Effect>
    decreases |es|
  {
    if es == [] then []
    else WithoutHandovers(es[..|es| - 1]) + (if es[|es| - 1].BatchHandedOver? then [] else [es[|es| - 1]])
  }

  lemma {:induction false} EffectsAppend(a: seq<Effect>, b: seq<Effect>)
    ensures Requests(a + b) == Requests(a) + Requests(b)
    ensures HandedOver(a + b) == HandedOver(a) + HandedOver(b)
    ensures WithoutHandovers(a + b) == WithoutHandovers(a) + WithoutHandovers(b)
    ensures Calls(a + b) == Calls(a) + Calls(b)
    decreases |b|
  {
    if b == [] {
      assert a + b == a;
    } else {
      assert (a + b)[..|a + b| - 1] == a + b[..|b| - 1];
      EffectsAppend(a, b[..|b| - 1]);
    }
  }

  /** The loop over `a + b` is the loop over `a` followed, unless it raised, by the loop over `b`. */
  function Then(p: Progress, q: Progress): Progress {
    if p.result.Failure? then p
    else if q.result.Failure? then Progress(q.result, p.consumed + q.consumed, p.effects + q.effects, p.handed)
    else Progress(Success(p.result.value + q.result.value), p.consumed + q.consumed, p.effects + q.effects, p.handed)
  }

  /** One more GTIN after a joined run is one more GTIN after its second part. */
  lemma ThenStep(pa: Progress, pb: Progress, r: Result<seq<GtinStockItem>, Error>, requested: seq<Effect>)
    ensures GlobalStockApiClient.GtinStep(Then(pa, pb), r, requested) == Then(pa, GlobalStockApiClient.GtinStep(pb, r, requested))
  {
    if pa.result.Success? && pb.result.Success? {
      assert pa.effects + pb.effects + requested == pa.effects + (pb.effects + requested);
      if r.Success? {
        assert pa.result.value + pb.result.value + r.value == pa.result.value + (pb.result.value + r.value);
      }
    }
  }

  lemma {:induction false} GtinsRunAppend(c: GlobalStockApiClient, a: seq<Json>, b: seq<Json>, gln: Json)
    ensures c.GtinsRun(a + b, gln) == Then(c.GtinsRun(a, gln), c.GtinsRun(b, gln))
    decreases |b|
  {
    if b == [] {
      assert a + b == a;
      var pa := c.GtinsRun(a, gln);
      assert pa.effects + [] == pa.effects;
      if pa.result.Success? {
        assert pa.result.value + [] == pa.result.value;
      }
    } else {
      var b' := b[..|b| - 1];
      var x := b[|b| - 1];
      assert (a + b)[..|a + b| - 1] == a + b';
      assert (a + b)[|a + b| - 1] == x;
      GtinsRunAppend(c, a, b', gln);
      ThenStep(c.GtinsRun(a, gln), c.GtinsRun(b', gln), c.GtinResult(x, gln), c.RequestEffect(x, gln));
    }
  }

  /** A run over batches is the run over their concatenation, apart from the callback calls. */
  lemma {:induction false} BatchesRunFlat(c: GlobalStockApiClient, context: SupplierContext, bs: seq<seq<Json>>, withCallback: bool)
    ensures var p := c.BatchesRun(context, bs, withCallback);
      var g := c.GtinsRun(Batching.Flatten(bs), context.supplierGln);
      p.result == g.result && p.consumed == g.consumed && WithoutHandovers(p.effects) == g.effects
    decreases |bs|
  {
    var gln := context.supplierGln;
    if bs != [] {
      var bs' := bs[..|bs| - 1];
      var last := bs[|bs| - 1];
      assert bs == bs' + [last];
      BatchesRunFlat(c, context, bs', withCallback);
      Batching.FlattenAppend(bs', [last]);
      assert Batching.Flatten([last]) == last by {
        assert [last][..0] == [];
      }
      GtinsRunAppend(c, Batching.Flatten(bs'), last, gln);
      var p' := c.BatchesRun(context, bs', withCallback);
      var b := c.GtinsRun(last, gln);
      GtinsEffectsPlain(c, last, gln);
      if p'.result.Success? {
        EffectsAppend(p'.effects, b.effects);
        if b.result.Success? {
          var more := GlobalStockApiClient.HandOverEffect(context, b.result.value, withCallback);
          EffectsAppend(p'.effects + b.effects, more);
          assert WithoutHandovers(more) == [] by {
            if more != [] {
              assert more[..0] == [];
            }
          }
        }
      }
    }
  }

  /** There is one callback call per handed-over list. */
  lemma {:induction false} CallsCount(es: seq<Effect>)
    ensures |Calls(es)| == |HandedOver(es)|
    decreases |es|
  {
    if es != [] {
      CallsCount(es[..|es| - 1]);
    }
  }

  /**
   * What one batch does when no earlier batch raised: its GTINs' requests,
   * then, unless one of them raised, the callback call with the supplier
   * context and that batch's items, if there are any and a callback is given.
   */
  function BatchEffects(c: GlobalStockApiClient, context: SupplierContext, b: seq<Json>, withCallback: bool): seq<Effect> {
    var g := c.GtinsRun(b, context.supplierGln);
    g.effects + (if g.result.Success? then GlobalStockApiClient.HandOverEffect(context, g.result.value, withCallback) else [])
  }

  /** The batches one after the other, each complete before the next begins. */
  function PerBatch(c: GlobalStockApiClient, context: SupplierContext, bs: seq<seq<Json>>, withCallback: bool): seq<Effect>
    decreases |bs|
  {
    if bs == [] then []
    else PerBatch(c, context, bs[..|bs| - 1], withCallback) + BatchEffects(c, context, bs[|bs| - 1], withCallback)
  }

  /** The callback calls the batches call for: one per batch with items, with the context and exactly those items. */
  function ExpectedCalls(c: GlobalStockApiClient, context: SupplierContext, bs: seq<seq<Json>>, withCallback: bool): seq<Effect>
    decreases |bs|
  {
    if bs == [] then []
    else
      var g := c.GtinsRun(bs[|bs| - 1], context.supplierGln);
      ExpectedCalls(c, context, bs[..|bs| - 1], withCallback) +
        (if g.result.Success? then GlobalStockApiClient.HandOverEffect(context, g.result.value, withCallback) else [])
  }

  /**
   * A loop over batches that does not raise ran every batch without an
   * exception, and its effects are the batches' effects in order: each
   * batch's requests followed by its own callback call.
   */
  lemma {:induction false} BatchesRunPerBatch(c: GlobalStockApiClient, context: SupplierContext, bs: seq<seq<Json>>, withCallback: bool)
    requires c.BatchesRun(context, bs, withCallback).result.Success?
    ensures forall i :: 0 <= i < |bs| ==> c.GtinsRun(bs[i], context.supplierGln).result.Success?
    ensures c.BatchesRun(context, bs, withCallback).effects == PerBatch(c, context, bs, withCallback)
    decreases |bs|
  {
    if bs != [] {
      var bs' := bs[..|bs| - 1];
      var last := bs[|bs| - 1];
      var p' := c.BatchesRun(context, bs', withCallback);
      var b := c.GtinsRun(last, context.supplierGln);
      assert p'.result.Success? && b.result.Success?;
      BatchesRunPerBatch(c, context, bs', withCallback);
      var more := GlobalStockApiClient.HandOverEffect(context, b.result.value, withCallback);
      assert p'.effects + b.effects + more == p'.effects + (b.effects + more);
      forall i | 0 <= i < |bs|
        ensures c.GtinsRun(bs[i], context.supplierGln).result.Success?
      {
        if i < |bs'| {
          assert bs[i] == bs'[i];
        }
      }
    }
  }

  /** The callback calls among the batches' effects are exactly the calls the batches call for. */
  lemma {:induction false} PerBatchCalls(c: GlobalStockApiClient, context: SupplierContext, bs: seq<seq<Json>>, withCallback: bool)
    ensures Calls(PerBatch(c, context, bs, withCallback)) == ExpectedCalls(c, context, bs, withCallback)
    decreases |bs|
  {
    if bs != [] {
      var bs' := bs[..|bs| - 1];
      var last := bs[|bs| - 1];
      var g := c.GtinsRun(last, context.supplierGln);
      var more := if g.result.Success? then GlobalStockApiClient.HandOverEffect(context, g.result.value, withCallback) else [];
      PerBatchCalls(c, context, bs', withCallback);
      EffectsAppend(PerBatch(c, context, bs', withCallback), g.effects + more);
      EffectsAppend(g.effects, more);
      GtinsEffectsPlain(c, last, context.supplierGln);
      CallsCount(g.effects);
      assert Calls(more) == more by {
        if more != [] {
          assert more[..0] == [];
        }
      }
    }
  }

  /** The callback facts of one batch step, for any progress so far and any batch outcome. */
  predicate HandedFacts(p: Progress, withCallback: bool) {
    HandedOver(p.effects) == p.handed &&
    (!withCallback ==> p.handed == []) &&
    (withCallback && p.result.Success? ==> Batching.Flatten(p.handed) == p.result.value) &&
    (forall k :: 0 <= k < |p.handed| ==> p.handed[k] != [])
  }

  lemma HandedStep(p: Progress, b: Progress, context: SupplierContext, withCallback: bool)
    requires HandedFacts(p, withCallback)
    requires HandedOver(b.effects) == []
    ensures HandedFacts(GlobalStockApiClient.BatchStep(p, b, context, withCallback), withCallback)
  {
    if p.result.Success? {
      EffectsAppend(p.effects, b.effects);
      if b.result.Success? {
        var more := GlobalStockApiClient.HandOverEffect(context, b.result.value, withCallback);
        var handed := GlobalStockApiClient.HandOver(context, b.result.value, withCallback);
        EffectsAppend(p.effects + b.effects, more);
        assert HandedOver(more) == handed by {
          if more != [] {
            assert more[..0] == [];
          }
        }
        if withCallback {
          Batching.FlattenAppend(p.handed, handed);
          if handed != [] {
            assert Batching.Flatten(handed) == b.result.value by {
              assert handed[..0] == [];
            }
          }
        }
      }
    }
  }

  /**
   * The callback calls of a run over batches: one per non-empty batch result,
   * none without a callback, and together exactly the items returned; when
   * no batch raises, the calls are, in order, one per batch with items, each
   * with the supplier context and exactly that batch's items.
   */
  lemma {:induction false} BatchesRunHanded(c: GlobalStockApiClient, context: SupplierContext, bs: seq<seq<Json>>, withCallback: bool)
    ensures HandedFacts(c.BatchesRun(context, bs, withCallback), withCallback)
    ensures c.BatchesRun(context, bs, withCallback).result.Success? ==>
      Calls(c.BatchesRun(context, bs, withCallback).effects) == ExpectedCalls(c, context, bs, withCallback)
    decreases |bs|
  {
    if c.BatchesRun(context, bs, withCallback).result.Success? {
      BatchesRunPerBatch(c, context, bs, withCallback);
      PerBatchCalls(c, context, bs, withCallback);
    }
    if bs != [] {
      var bs' := bs[..|bs| - 1];
      var last := bs[|bs| - 1];
      BatchesRunHanded(c, context, bs', withCallback);
      GtinsEffectsPlain(c, last, context.supplierGln);
      HandedStep(c.BatchesRun(context, bs', withCallback), c.GtinsRun(last, context.supplierGln), context, withCallback);
    }
  }

  /** The GTIN loop itself never calls the callback. */
  lemma {:induction false} GtinsEffectsPlain(c: GlobalStockApiClient, gtins: seq<Json>, gln: Json)
    ensures WithoutHandovers(c.GtinsRun(gtins, gln).effects) == c.GtinsRun(gtins, gln).effects
    ensures HandedOver(c.GtinsRun(gtins, gln).effects) == []
    decreases |gtins|
  {
    if gtins != [] {
      var x := gtins[|gtins| - 1];
      GtinsEffectsPlain(c, gtins[..|gtins| - 1], gln);
      PlainStep(c.GtinsRun(gtins[..|gtins| - 1], gln), c.GtinResult(x, gln), c.RequestEffect(x, gln));
    }
  }

  lemma PlainStep(p: Progress, r: Result<seq<GtinStockItem>, Error>, requested: seq<Effect>)
    requires WithoutHandovers(p.effects) == p.effects && HandedOver(p.effects) == []
    requires requested == [] || (|requested| == 1 && !requested[0].BatchHandedOver?)
    ensures var q := GlobalStockApiClient.GtinStep(p, r, requested);
      WithoutHandovers(q.effects) == q.effects && HandedOver(q.effects) == []
  {
    if p.result.Success? {
      EffectsAppend(p.effects, requested);
      if requested == [] {
        assert p.effects + requested == p.effects;
      } else {
        assert requested[..0] == [];
        assert WithoutHandovers(requested) == requested;
        assert HandedOver(requested) == [];
      }
    }
  }

  /** A GTIN loop that ends without an exception requested every GTIN once, in order, and counted it. */
  lemma {:induction false} GtinsRunRequestsAll(c: GlobalStockApiClient, gtins: seq<Json>, gln: Json)
    requires c.GtinsRun(gtins, gln).result.Success?
    ensures Requests(c.GtinsRun(gtins, gln).effects) == gtins
    ensures c.GtinsRun(gtins, gln).consumed == |gtins|
    decreases |gtins|
  {
    if gtins != [] {
      RequestsLast(c, gtins, gln);
      GtinsRunRequestsAll(c, gtins[..|gtins| - 1], gln);
      SnocSplit(gtins);
    }
  }

  /** The last GTIN of a loop without an exception adds its own request and one to the count. */
  lemma RequestsLast(c: GlobalStockApiClient, gtins: seq<Json>, gln: Json)
    requires gtins != []
    requires c.GtinsRun(gtins, gln).result.Success?
    ensures c.GtinsRun(gtins[..|gtins| - 1], gln).result.Success?
    ensures var p := c.GtinsRun(gtins[..|gtins| - 1], gln);
      var q := c.GtinsRun(gtins, gln);
      Requests(q.effects) == Requests(p.effects) + [gtins[|gtins| - 1]] && q.consumed == p.consumed + 1
  {
    RequestsSnoc(c.GtinsRun(gtins[..|gtins| - 1], gln).effects, gtins[|gtins| - 1], gln);
  }

  lemma RequestsSnoc(es: seq<Effect>, gtin: Json, gln: Json)
    ensures Requests(es + [AvailabilityRequested(gtin, gln)]) == Requests(es) + [gtin]
  {
    var e := AvailabilityRequested(gtin, gln);
    assert (es + [e])[..|es|] == es;
  }

  /** The effects of a discovery call hold no request for availability and no hand-over. */
  lemma DiscoveryEffectPlain(c: GlobalStockApiClient, gln: Json)
    ensures var d := c.DiscoveryEffect(gln);
      Requests(d) == [] && HandedOver(d) == [] && WithoutHandovers(d) == d
  {
    var d := c.DiscoveryEffect(gln);
    if d != [] {
      assert d[..0] == [];
    }
  }

  /**
   * Any positive batch size gives the same response, the same counter and the
   * same requests: batching only decides where the callback is called.
   */
  lemma BatchSizeIrrelevant(c: GlobalStockApiClient, context: SupplierContext, size1: int, size2: int, callback1: bool, callback2: bool)
    requires size1 > 0 && size2 > 0
    ensures var f1 := c.FetchSpec(context, size1, callback1);
      var f2 := c.FetchSpec(context, size2, callback2);
      f1.result == f2.result && f1.counter == f2.counter &&
      WithoutHandovers(f1.effects) == WithoutHandovers(f2.effects)
  {
    var gln := context.supplierGln;
    var d := c.DiscoveryEffect(gln);
    DiscoveryEffectPlain(c, gln);
    if c.DiscoveryResult(gln).Success? && Sized(c.DiscoveryResult(gln).value) && !c.DiscoveryResult(gln).value.JObj? {
      var gtins := Elements(c.DiscoveryResult(gln).value).value;
      Batching.BatchesCover(gtins, size1);
      Batching.BatchesCover(gtins, size2);
      BatchesRunFlat(c, context, Batching.Batches(gtins, size1), callback1);
      BatchesRunFlat(c, context, Batching.Batches(gtins, size2), callback2);
      EffectsAppend(d, c.BatchesRun(context, Batching.Batches(gtins, size1), callback1).effects);
      EffectsAppend(d, c.BatchesRun(context, Batching.Batches(gtins, size2), callback2).effects);
    }
  }

  /** A fetch with a positive batch size that succeeds ran the batch loop over the sliced discovery body. */
  lemma FetchSucceeded(c: GlobalStockApiClient, context: SupplierContext, batchSize: int, withCallback: bool)
    requires batchSize > 0
    requires c.FetchSpec(context, batchSize, withCallback).result.Success?
    ensures c.DiscoveryResult(context.supplierGln).Success? && Sized(c.DiscoveryResult(context.supplierGln).value)
    ensures GtinBatches(c.DiscoveryResult(context.supplierGln).value, batchSize).Success?
    ensures var bs := GtinBatches(c.DiscoveryResult(context.supplierGln).value, batchSize).value;
      var p := c.BatchesRun(context, bs, withCallback);
      c.FetchSpec(context, batchSize, withCallback) ==
        FetchRun(c.ToResponse(context, p.result), Some(p.consumed), c.DiscoveryEffect(context.supplierGln) + p.effects, p.handed)
  {
  }

  /**
   * A successful fetch discovered a list, a str or an empty dict, and it
   * requested the availability of every element the loop visits (a str's
   * characters) exactly once, in discovery order, leaving the counter at
   * their number.
   */
  lemma SuccessfulFetchRequestsEveryGtin(c: GlobalStockApiClient, context: SupplierContext, batchSize: int, withCallback: bool)
    requires batchSize > 0
    requires c.FetchSpec(context, batchSize, withCallback).result.Success?
    ensures c.DiscoveryResult(context.supplierGln).Success? && Sized(c.DiscoveryResult(context.supplierGln).value)
    ensures c.DiscoveryResult(context.supplierGln).value.JObj? ==> c.DiscoveryResult(context.supplierGln).value.fields == []
    ensures var gtins := Elements(c.DiscoveryResult(context.supplierGln).value).value;
      var f := c.FetchSpec(context, batchSize, withCallback);
      Requests(f.effects) == gtins && f.counter == Some(|gtins|)
  {
    var gln := context.supplierGln;
    FetchSucceeded(c, context, batchSize, withCallback);
    var body := c.DiscoveryResult(gln).value;
    var gtins := Elements(body).value;
    var bs := GtinBatches(body, batchSize).value;
    DiscoveryEffectPlain(c, gln);
    if body.JObj? {
      assert bs == [] && gtins == [];
      assert c.DiscoveryEffect(gln) + c.BatchesRun(context, bs, withCallback).effects == c.DiscoveryEffect(gln);
    } else {
      Batching.BatchesCover(gtins, batchSize);
      BatchesRunFlat(c, context, bs, withCallback);
      var p := c.BatchesRun(context, bs, withCallback);
      GtinsRunRequestsAll(c, gtins, gln);
      EffectsAppend(c.DiscoveryEffect(gln), p.effects);
      RequestsIgnoreHandovers(p.effects);
    }
  }

  /** A str from discovery is fetched character by character: each character is requested as a GTIN. */
  lemma StrDiscoveryRequestsCharacters(c: GlobalStockApiClient, context: SupplierContext, batchSize: int, withCallback: bool)
    requires batchSize > 0
    requires c.FetchSpec(context, batchSize, withCallback).result.Success?
    requires c.DiscoveryResult(context.supplierGln).Success? && c.DiscoveryResult(context.supplierGln).value.JStr?
    ensures var s := c.DiscoveryResult(context.supplierGln).value.s;
      var f := c.FetchSpec(context, batchSize, withCallback);
      |Requests(f.effects)| == |s| && forall k :: 0 <= k < |s| ==> Requests(f.effects)[k] == JStr([s[k]])
  {
    SuccessfulFetchRequestsEveryGtin(c, context, batchSize, withCallback);
  }

  /**
   * When discovery returns a value without a length (null, a number, a
   * boolean), `len` raises TypeError before the counter is reset, and no
   * availability is requested.
   */
  lemma UnsizedDiscoveryStopsFetch(c: GlobalStockApiClient, context: SupplierContext, batchSize: int, withCallback: bool)
    requires c.DiscoveryResult(context.supplierGln).Success? && !Sized(c.DiscoveryResult(context.supplierGln).value)
    ensures var f := c.FetchSpec(context, batchSize, withCallback);
      f.result == Failure(NoLen(c.DiscoveryResult(context.supplierGln).value)) && f.counter.None? &&
      Requests(f.effects) == [] && HandedOver(f.effects) == []
  {
    DiscoveryEffectPlain(c, context.supplierGln);
  }

  /**
   * A non-empty dict from discovery cannot be sliced: TypeError after the
   * counter reset, before any availability request.
   */
  lemma DictDiscoveryFailsToSlice(c: GlobalStockApiClient, context: SupplierContext, batchSize: int, withCallback: bool)
    requires batchSize > 0
    requires c.DiscoveryResult(context.supplierGln).Success?
    requires c.DiscoveryResult(context.supplierGln).value.JObj? && c.DiscoveryResult(context.supplierGln).value.fields != []
    ensures var f := c.FetchSpec(context, batchSize, withCallback);
      f.result == Failure(Builtin(TypeError, SliceText)) && f.counter == Some(0) &&
      Requests(f.effects) == [] && HandedOver(f.effects) == []
  {
    DiscoveryEffectPlain(c, context.supplierGln);
  }

  /**
   * With a list under `stocksQueryResult`, an answer yields items exactly
   * when every entry is a dict whose timestamp is falsy or a parseable str;
   * then one item per entry, in order, with the entry's GTIN, quantity and
   * traffic light as given. Otherwise the first entry that fails decides
   * the exception.
   */
  lemma AnswerItemsMeaning(body: Json, entries: seq<Json>, parseIso: string -> Option<Timestamp>)
    requires body.JObj? && Lookup(body.fields, StocksKey) == Some(JArr(entries))
    ensures var r := BodyItems(body, parseIso);
      r.Success? <==> forall k :: 0 <= k < |entries| ==>
        entries[k].JObj? && EntryTimestamp(Get(entries[k].fields, "timestamp"), parseIso).Success?
    ensures var r := BodyItems(body, parseIso);
      r.Success? ==> |r.value| == |entries| && forall k :: 0 <= k < |entries| ==>
        r.value[k].gtin == Get(entries[k].fields, "gtin") && r.value[k].quantity == Get(entries[k].fields, "quantity") &&
        r.value[k].stockTrafficLight == Get(entries[k].fields, "stockTrafficLight") &&
        r.value[k].itemType == Some(ItemType(Get(entries[k].fields, "type")))
    ensures var r := BodyItems(body, parseIso);
      r.Failure? ==> exists k :: 0 <= k < |entries| && MapEntry(entries[k], parseIso).Failure? &&
                                r.error == MapEntry(entries[k], parseIso).error &&
                                forall j :: 0 <= j < k ==> MapEntry(entries[j], parseIso).Success?
  {
    var read := EntryReader(parseIso);
    assert forall x :: read(x) == MapEntry(x, parseIso);
    MapAllMeaning(read, entries);
  }

  /** As written, a discovery rejected with an error status (or with no response) reports "Status code: N/A". */
  lemma DiscoveryErrorHidesStatus(c: GlobalStockApiClient, gln: Json)
    requires c.HasToken() && c.discover(gln).DiscoveryFailed?
    requires c.discover(gln).responseStatus.Some? ==> 400 <= c.discover(gln).responseStatus.value < 600
    ensures c.DiscoveryResult(gln) ==
      Failure(App(NewApiError(DiscoveryErrorText + c.discover(gln).text + ". Status code: N/A", None, None)))
  {
    var text := c.discover(gln).text;
    assert StatusTextAsWritten(c.discover(gln).responseStatus) == "N/A";
    assert DiscoveryErrorText + text + ". Status code: " + "N/A" == DiscoveryErrorText + text + ". Status code: N/A";
  }

  lemma {:induction false} RequestsIgnoreHandovers(es: seq<Effect>)
    ensures Requests(WithoutHandovers(es)) == Requests(es)
    decreases |es|
  {
    if es != [] {
      var rest := es[..|es| - 1];
      var e := es[|es| - 1];
      RequestsIgnoreHandovers(rest);
      if !e.BatchHandedOver? {
        EffectsAppend(WithoutHandovers(rest), [e]);
        assert [e][..0] == [];
      } else {
        assert WithoutHandovers(es) == WithoutHandovers(rest) + [] == WithoutHandovers(rest);
        assert Requests(es) == Requests(rest) + [] == Requests(rest);
      }
    }
  }

  /** Prefixing the discovery request to a run keeps its callback calls. */
  lemma DiscoveryHandsNothing(d: seq<Effect>, p: Progress, withCallback: bool)
    requires HandedFacts(p, withCallback) && HandedOver(d) == []
    ensures HandedOver(d + p.effects) == p.handed
  {
    EffectsAppend(d, p.effects);
  }

  /**
   * With a callback, a successful fetch hands over every returned item
   * exactly once, in order, in non-empty batch lists; without one, nothing.
   */
  lemma CallbackSeesEveryItem(c: GlobalStockApiClient, context: SupplierContext, batchSize: int, withCallback: bool)
    requires batchSize > 0
    requires c.FetchSpec(context, batchSize, withCallback).result.Success?
    ensures var f := c.FetchSpec(context, batchSize, withCallback);
      var handed := HandedOver(f.effects);
      (withCallback ==> Batching.Flatten(handed) == f.result.value.stockItems) &&
      (!withCallback ==> handed == []) &&
      (forall k :: 0 <= k < |handed| ==> handed[k] != [])
    ensures var f := c.FetchSpec(context, batchSize, withCallback);
      var bs := GtinBatches(c.DiscoveryResult(context.supplierGln).value, batchSize).value;
      f.effects == c.DiscoveryEffect(context.supplierGln) + PerBatch(c, context, bs, withCallback) &&
      Calls(f.effects) == ExpectedCalls(c, context, bs, withCallback)
  {
    var gln := context.supplierGln;
    FetchSucceeded(c, context, batchSize, withCallback);
    var bs := GtinBatches(c.DiscoveryResult(gln).value, batchSize).value;
    var p := c.BatchesRun(context, bs, withCallback);
    BatchesRunHanded(c, context, bs, withCallback);
    DiscoveryEffectPlain(c, gln);
    DiscoveryHandsNothing(c.DiscoveryEffect(gln), p, withCallback);
    BatchesRunPerBatch(c, context, bs, withCallback);
    EffectsAppend(c.DiscoveryEffect(gln), p.effects);
    CallsCount(c.DiscoveryEffect(gln));
  }

  /** A negative batch size makes no batches: the response is empty, whatever value with a length was discovered. */
  lemma NegativeBatchSizeFetchesNothing(c: GlobalStockApiClient, context: SupplierContext, batchSize: int, withCallback: bool)
    requires batchSize < 0
    requires c.DiscoveryResult(context.supplierGln).Success? && Sized(c.DiscoveryResult(context.supplierGln).value)
    ensures var f := c.FetchSpec(context, batchSize, withCallback);
      f.result == Success(GtinStockResponse(context, [])) && f.counter == Some(0) &&
      Requests(f.effects) == []
  {
    DiscoveryEffectPlain(c, context.supplierGln);
  }

  /** When discovery raises, no availability is requested and the callback is never called. */
  lemma DiscoveryFailureStopsFetch(c: GlobalStockApiClient, context: SupplierContext, batchSize: int, withCallback: bool)
    requires c.DiscoveryResult(context.supplierGln).Failure?
    ensures var f := c.FetchSpec(context, batchSize, withCallback);
      f.result == Failure(c.DiscoveryResult(context.supplierGln).error) && f.counter.None? &&
      Requests(f.effects) == [] && HandedOver(f.effects) == []
  {
    DiscoveryEffectPlain(c, context.supplierGln);
  }
}

/**
 * The loop both application services end with: hand each fetched item, in
 * order, to a repository call that may raise, and let the first exception
 * end the loop. `save` is the repository's answer for an item and `call`
 * the entry the service logs for it.
 */
module SaveLoop {
  import opened Wrappers
  import opened Exceptions
  import opened SeqFacts

  /** A stretch of a sync: completed or the exception that escaped, and the call log after it. */
  datatype Run<C> = Run(result: Result<(), Error>, calls: seq<C>)

  /** The log entries for `items`, in order. */
  function Calls<T, C>(call: T -> C, items: seq<T>): (cs: seq<C>)
    ensures |cs| == |items|
    ensures forall k :: 0 <= k < |items| ==> cs[k] == call(items[k])
  {
    seq(|items|, k requires 0 <= k < |items| => call(items[k]))
  }

  /** One more save after `s`, unless an exception already ended the loop. */
  function Step<T, C>(save: T -> Result<(), Error>, call: T -> C, s: Run<C>, item: T): Run<C> {
    if s.result.Failure? then s else Run(save(item), s.calls + [call(item)])
  }

  /** The loop over `items`, from `s`. */
  function SaveEach<T, C>(save: T -> Result<(), Error>, call: T -> C, s: Run<C>, items: seq<T>): Run<C>
    decreases |items|
  {
    if items == [] then s
    else Step(save, call, SaveEach(save, call, s, items[..|items| - 1]), items[|items| - 1])
  }

  lemma SaveEachSnoc<T, C>(save: T -> Result<(), Error>, call: T -> C, s: Run<C>, items: seq<T>, i: nat)
    requires i < |items|
    ensures SaveEach(save, call, s, items[..i + 1]) == Step(save, call, SaveEach(save, call, s, items[..i]), items[i])
  {
    PrefixStep(items, i);
  }

  lemma {:induction false} SaveEachSticky<T, C>(save: T -> Result<(), Error>, call: T -> C, s: Run<C>, items: seq<T>, i: nat)
    requires i <= |items|
    requires SaveEach(save, call, s, items[..i]).result.Failure?
    ensures SaveEach(save, call, s, items) == SaveEach(save, call, s, items[..i])
    decreases |items| - i
  {
    if i < |items| {
      PrefixStep(items, i);
      SaveEachSticky(save, call, s, items, i + 1);
    } else {
      Whole(items);
    }
  }

  /**
   * The loop saves a prefix of `items`, once each and in order; every save
   * but the last completed, and the loop ends early only with the exception
   * of that last save. It completes exactly when every item's save
   * completes, and then the prefix is all of `items`.
   */
  lemma {:induction false} SaveEachMeaning<T, C>(save: T -> Result<(), Error>, call: T -> C, s: Run<C>, items: seq<T>)
    requires s.result == Success(())
    ensures var r := SaveEach(save, call, s, items);
      var m := |r.calls| - |s.calls|;
      0 <= m <= |items| &&
      r.calls == s.calls + Calls(call, items[..m]) &&
      (forall k :: 0 <= k < m - 1 ==> save(items[k]).Success?) &&
      (r.result.Success? <==> forall k :: 0 <= k < |items| ==> save(items[k]).Success?) &&
      (r.result.Success? ==> m == |items|) &&
      (r.result.Failure? ==> 0 < m && r.result == save(items[m - 1]))
    decreases |items|
  {
    if items != [] {
      var n := |items| - 1;
      var init := items[..n];
      SaveEachMeaning(save, call, s, init);
      var p := SaveEach(save, call, s, init);
      var m' := |p.calls| - |s.calls|;
      assert items[..m'] == init[..m'];
      assert forall k :: 0 <= k < n ==> init[k] == items[k];
      if p.result.Success? {
        assert init[..m'] == init;
        assert items[..n + 1] == items;
        assert Calls(call, items) == Calls(call, init) + [call(items[n])];
        Associative(s.calls, Calls(call, init), [call(items[n])]);
      }
    }
  }
}

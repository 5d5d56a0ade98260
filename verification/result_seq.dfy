/**
 * Mapping a sequence with an operation that may raise, as a Python list
 * comprehension or an appending loop does: one result per item, in order,
 * and the first item that raises ends the mapping with its exception.
 */
module ResultSeq {
  import opened Wrappers
  import opened SeqFacts

  function MapAll<A, B, E>(f: A -> Result<B, E>, items: seq<A>): Result<seq<B>, E>
    decreases |items|
  {
    if items == [] then Success([])
    else MapStep(MapAll(f, items[..|items| - 1]), f(items[|items| - 1]))
  }

  /** The results so far followed by one more, unless an exception already ended the mapping. */
  function MapStep<B, E>(acc: Result<seq<B>, E>, r: Result<B, E>): Result<seq<B>, E> {
    if acc.Failure? then acc
    else if r.Failure? then Failure(r.error)
    else Success(acc.value + [r.value])
  }

  lemma MapAllSnoc<A, B, E>(f: A -> Result<B, E>, items: seq<A>, j: nat)
    requires j < |items|
    ensures MapAll(f, items[..j + 1]) == MapStep(MapAll(f, items[..j]), f(items[j]))
  {
    PrefixStep(items, j);
  }

  lemma {:induction false} MapAllSticky<A, B, E>(f: A -> Result<B, E>, items: seq<A>, i: nat)
    requires i <= |items|
    requires MapAll(f, items[..i]).Failure?
    ensures MapAll(f, items) == MapAll(f, items[..i])
    decreases |items| - i
  {
    if i < |items| {
      PrefixStep(items, i);
      MapAllSticky(f, items, i + 1);
    } else {
      Whole(items);
    }
  }

  /**
   * The mapping completes exactly when no item raises, and then holds one
   * result per item, in order; otherwise it raises what the first failing
   * item raises.
   */
  lemma {:induction false} MapAllMeaning<A, B, E>(f: A -> Result<B, E>, items: seq<A>)
    ensures MapAll(f, items).Success? <==> forall k :: 0 <= k < |items| ==> f(items[k]).Success?
    ensures MapAll(f, items).Success? ==>
      |MapAll(f, items).value| == |items| &&
      forall k :: 0 <= k < |items| ==> f(items[k]) == Success(MapAll(f, items).value[k])
    ensures MapAll(f, items).Failure? ==>
      exists k :: 0 <= k < |items| && f(items[k]).Failure? &&
        MapAll(f, items).error == f(items[k]).error && forall j :: 0 <= j < k ==> f(items[j]).Success?
    decreases |items|
  {
    if items != [] {
      var init := items[..|items| - 1];
      MapAllMeaning(f, init);
      assert forall k :: 0 <= k < |init| ==> init[k] == items[k];
      if MapAll(f, init).Failure? {
        var k :| 0 <= k < |init| && f(init[k]).Failure? &&
          MapAll(f, init).error == f(init[k]).error && forall j :: 0 <= j < k ==> f(init[j]).Success?;
        assert MapAll(f, items).error == f(items[k]).error;
      } else if f(items[|items| - 1]).Failure? {
        assert MapAll(f, items).error == f(items[|items| - 1]).error;
      }
    }
  }

  /** A list comprehension evaluated item by item, left to right. */
  method MapEach<A, B, E>(f: A -> Result<B, E>, items: seq<A>) returns (r: Result<seq<B>, E>)
    ensures r == MapAll(f, items)
  {
    var done: seq<B> := [];
    var k := 0;
    while k < |items|
      invariant 0 <= k <= |items|
      invariant MapAll(f, items[..k]) == Success(done)
    {
      MapAllSnoc(f, items, k);
      var x := f(items[k]);
      if x.Failure? {
        MapAllSticky(f, items, k + 1);
        return Failure(x.error);
      }
      done := done + [x.value];
      k := k + 1;
    }
    Whole(items);
    r := Success(done);
  }

  /** The concatenation of `parts`, in order. */
  function Concat<T>(parts: seq<seq<T>>): seq<T>
    decreases |parts|
  {
    if parts == [] then [] else Concat(parts[..|parts| - 1]) + parts[|parts| - 1]
  }

  /**
   * A loop that extends one list by what each item yields, as `list.extend`
   * or `+=` does: the first item that raises ends it with its exception.
   */
  function FlatMapAll<A, B, E>(f: A -> Result<seq<B>, E>, items: seq<A>): Result<seq<B>, E>
    decreases |items|
  {
    if items == [] then Success([])
    else FlatStep(FlatMapAll(f, items[..|items| - 1]), f(items[|items| - 1]))
  }

  function FlatStep<B, E>(acc: Result<seq<B>, E>, r: Result<seq<B>, E>): Result<seq<B>, E> {
    if acc.Failure? then acc
    else if r.Failure? then Failure(r.error)
    else Success(acc.value + r.value)
  }

  /** What each item yields, or nothing for an item that raises. */
  function Outputs<A, B, E>(f: A -> Result<seq<B>, E>, items: seq<A>): (parts: seq<seq<B>>)
    ensures |parts| == |items|
  {
    seq(|items|, k requires 0 <= k < |items| => if f(items[k]).Success? then f(items[k]).value else [])
  }

  /**
   * The loop completes exactly when no item raises, and then holds what the
   * items yield concatenated in item order.
   */
  lemma {:induction false} FlatMapAllMeaning<A, B, E>(f: A -> Result<seq<B>, E>, items: seq<A>)
    ensures FlatMapAll(f, items).Success? <==> forall k :: 0 <= k < |items| ==> f(items[k]).Success?
    ensures FlatMapAll(f, items).Success? ==> FlatMapAll(f, items).value == Concat(Outputs(f, items))
    decreases |items|
  {
    if items != [] {
      var init := items[..|items| - 1];
      FlatMapAllMeaning(f, init);
      assert forall k :: 0 <= k < |init| ==> init[k] == items[k];
      assert Outputs(f, items)[..|items| - 1] == Outputs(f, init);
    }
  }
}

/**
 * Slicing the discovered GTIN list into batches:
 * `[gtins[i : i + batch_size] for i in range(0, len(gtins), batch_size)]`.
 */
module Batching {

  /**
   * The list comprehension over `range(0, n, size)` for a non-zero size. A
   * negative size makes the range empty, so no batch at all is produced.
   */
  function Batches<T>(xs: seq<T>, size: int): (bs: seq<seq<T>>)
    requires size != 0
    ensures size < 0 ==> bs == []
    decreases |xs|
  {
    if size < 0 || xs == [] then []
    else if |xs| <= size then [xs]
    else [xs[..size]] + Batches(xs[size..], size)
  }

  /** Concatenation of a list of lists, in order. */
  function Flatten<T>(bs: seq<seq<T>>): seq<T>
    decreases |bs|
  {
    if bs == [] then [] else Flatten(bs[..|bs| - 1]) + bs[|bs| - 1]
  }

  lemma {:induction false} FlattenAppend<T>(a: seq<seq<T>>, b: seq<seq<T>>)
    ensures Flatten(a + b) == Flatten(a) + Flatten(b)
    decreases |b|
  {
    if b == [] {
      assert a + b == a;
    } else {
      var b' := b[..|b| - 1];
      assert (a + b)[..|a + b| - 1] == a + b';
      FlattenAppend(a, b');
    }
  }

  lemma FlattenCons<T>(x: seq<T>, bs: seq<seq<T>>)
    ensures Flatten([x] + bs) == x + Flatten(bs)
  {
    FlattenAppend([x], bs);
    assert [x][..0] == [];
  }

  /** Concatenating the batches gives back the input list exactly: nothing lost, nothing repeated, order kept. */
  lemma {:induction false} BatchesCover<T>(xs: seq<T>, size: int)
    requires size > 0
    ensures Flatten(Batches(xs, size)) == xs
    decreases |xs|
  {
    if xs == [] {
    } else if |xs| <= size {
      FlattenCons(xs, []);
    } else {
      BatchesCover(xs[size..], size);
      FlattenCons(xs[..size], Batches(xs[size..], size));
      assert xs[..size] + xs[size..] == xs;
    }
  }

  /**
   * There are ceil(n / size) batches: the fewest batches of `size` elements
   * that hold all n elements.
   */
  lemma {:induction false} BatchesCount<T>(xs: seq<T>, size: int)
    requires size > 0
    ensures var n := |Batches(xs, size)|;
      (n == 0 <==> xs == []) && n * size >= |xs| && (n - 1) * size < |xs|
    decreases |xs|
  {
    if xs != [] && |xs| > size {
      BatchesCount(xs[size..], size);
      var m := |Batches(xs[size..], size)|;
      assert |Batches(xs, size)| == m + 1;
      assert (m + 1) * size == m * size + size;
      assert m * size == (m - 1) * size + size;
    }
  }

  /** Every batch is non-empty and at most `size` long; all but the last are exactly `size` long. */
  predicate WellShaped<T>(bs: seq<seq<T>>, size: int) {
    (forall k :: 0 <= k < |bs| ==> 0 < |bs[k]| <= size) &&
    (forall k :: 0 <= k < |bs| - 1 ==> |bs[k]| == size)
  }

  lemma {:induction false} BatchesShape<T>(xs: seq<T>, size: int)
    requires size > 0
    ensures WellShaped(Batches(xs, size), size)
    decreases |xs|
  {
    if xs != [] && |xs| > size {
      BatchesShape(xs[size..], size);
      var rest := Batches(xs[size..], size);
      var bs := Batches(xs, size);
      assert bs == [xs[..size]] + rest;
      forall k | 0 <= k < |bs|
        ensures 0 < |bs[k]| <= size && (k < |bs| - 1 ==> |bs[k]| == size)
      {
        if k > 0 {
          assert bs[k] == rest[k - 1];
        }
      }
    }
  }
}

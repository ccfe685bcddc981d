/**
 * How the accumulator cuts the records of one collection into batches: every
 * time the collection's buffer reaches MaxBatchSize it is dispatched whole,
 * and whatever is left at the end of the stream is dispatched by the final
 * flush.
 */
module Batching {

  /** The threshold at which a collection's buffer is dispatched. */
  const MaxBatchSize: nat := 1000

  /** The batches dispatched while the stream is still being read. */
  function FullBatches<T>(s: seq<T>): seq<seq<T>>
    decreases |s|
  {
    if |s| < MaxBatchSize then [] else [s[..MaxBatchSize]] + FullBatches(s[MaxBatchSize..])
  }

  /** What stays buffered once every full batch has been dispatched. */
  function Leftover<T>(s: seq<T>): seq<T>
    decreases |s|
  {
    if |s| < MaxBatchSize then s else Leftover(s[MaxBatchSize..])
  }

  /** All batches of one collection: the full ones, then the flushed remainder if any. */
  function Batches<T>(s: seq<T>): seq<seq<T>> {
    FullBatches(s) + if |Leftover(s)| == 0 then [] else [Leftover(s)]
  }

  function Flatten<T>(ss: seq<seq<T>>): seq<T>
    decreases |ss|
  {
    if |ss| == 0 then [] else Flatten(ss[..|ss| - 1]) + ss[|ss| - 1]
  }

  lemma {:induction false} FlattenAppend<T>(a: seq<seq<T>>, b: seq<seq<T>>)
    ensures Flatten(a + b) == Flatten(a) + Flatten(b)
    decreases |b|
  {
    if |b| > 0 {
      assert (a + b)[..|a + b| - 1] == a + b[..|b| - 1];
      FlattenAppend(a, b[..|b| - 1]);
    } else {
      assert a + b == a;
    }
  }

  /** The split into full batches and a leftover loses, duplicates and reorders nothing. */
  lemma {:induction false} SplitConserves<T>(s: seq<T>)
    ensures Flatten(FullBatches(s)) + Leftover(s) == s
    decreases |s|
  {
    if |s| >= MaxBatchSize {
      SplitConserves(s[MaxBatchSize..]);
      FlattenAppend([s[..MaxBatchSize]], FullBatches(s[MaxBatchSize..]));
      assert Flatten([s[..MaxBatchSize]]) == s[..MaxBatchSize] by {
        assert [s[..MaxBatchSize]][..0] == [];
      }
      assert s == s[..MaxBatchSize] + s[MaxBatchSize..];
    }
  }

  /** The full batches number |s| / MaxBatchSize, each of exactly MaxBatchSize; the leftover is short. */
  lemma {:induction false} SplitSizes<T>(s: seq<T>)
    ensures |FullBatches(s)| == |s| / MaxBatchSize
    ensures forall j | 0 <= j < |FullBatches(s)| :: |FullBatches(s)[j]| == MaxBatchSize
    ensures |Leftover(s)| == |s| % MaxBatchSize
    decreases |s|
  {
    if |s| >= MaxBatchSize {
      SplitSizes(s[MaxBatchSize..]);
      var rest := FullBatches(s[MaxBatchSize..]);
      assert FullBatches(s) == [s[..MaxBatchSize]] + rest;
      forall j | 0 <= j < |FullBatches(s)| ensures |FullBatches(s)[j]| == MaxBatchSize {
        if j > 0 { assert FullBatches(s)[j] == rest[j - 1]; }
      }
    }
  }

  lemma FlattenOne<T>(x: seq<T>)
    ensures Flatten([x]) == x
  {
    assert [x][..0] == [];
  }

  /** Concatenating the batches of a collection gives back its records in source order. */
  lemma BatchesConserve<T>(s: seq<T>)
    ensures Flatten(Batches(s)) == s
  {
    SplitConserves(s);
    var full, left := FullBatches(s), Leftover(s);
    if |left| == 0 {
      assert Batches(s) == full + [];
      assert full + [] == full;
      assert Flatten(full) + left == Flatten(full);
    } else {
      assert Batches(s) == full + [left];
      FlattenAppend(full, [left]);
      FlattenOne(left);
    }
  }

  /** No batch is empty or larger than MaxBatchSize, and only the last may be short. */
  lemma BatchesSized<T>(s: seq<T>)
    ensures |Batches(s)| == (|s| + MaxBatchSize - 1) / MaxBatchSize
    ensures forall j | 0 <= j < |Batches(s)| :: 1 <= |Batches(s)[j]| <= MaxBatchSize
    ensures forall j | 0 <= j < |Batches(s)| - 1 :: |Batches(s)[j]| == MaxBatchSize
  {
    SplitSizes(s);
    var b := Batches(s);
    forall j | 0 <= j < |b| ensures 1 <= |b[j]| <= MaxBatchSize && (j < |b| - 1 ==> |b[j]| == MaxBatchSize) {
      if j < |FullBatches(s)| {
        assert b[j] == FullBatches(s)[j];
      } else {
        assert b[j] == Leftover(s);
      }
    }
  }

  /**
   * Appending one record to a collection either completes a full batch (when
   * the buffer held MaxBatchSize - 1 records) or extends the buffer.
   */
  lemma {:induction false} AppendStep<T>(s: seq<T>, x: T)
    ensures |Leftover(s)| + 1 == MaxBatchSize ==>
      FullBatches(s + [x]) == FullBatches(s) + [Leftover(s) + [x]] && Leftover(s + [x]) == []
    ensures |Leftover(s)| + 1 < MaxBatchSize ==>
      FullBatches(s + [x]) == FullBatches(s) && Leftover(s + [x]) == Leftover(s) + [x]
    decreases |s|
  {
    SplitSizes(s);
    if |s| >= MaxBatchSize {
      var t := s + [x];
      assert t[..MaxBatchSize] == s[..MaxBatchSize];
      assert t[MaxBatchSize..] == s[MaxBatchSize..] + [x];
      AppendStep(s[MaxBatchSize..], x);
    } else if |s| + 1 == MaxBatchSize {
      var t := s + [x];
      assert t[..MaxBatchSize] == t;
      assert t[MaxBatchSize..] == [];
    }
  }

  /** 2500 records of one month go out as batches of 1000, 1000 and 500. */
  lemma TwentyFiveHundredRecords<T>(s: seq<T>)
    requires |s| == 2500
    ensures |Batches(s)| == 3
    ensures |Batches(s)[0]| == 1000 && |Batches(s)[1]| == 1000 && |Batches(s)[2]| == 500
  {
    SplitSizes(s);
    assert Batches(s) == FullBatches(s) + [Leftover(s)];
  }
}

/**
 * The chunked drawing drivers of the three map layers share one shape: a list
 * of count items is cut into (int)Math.Ceiling(count / (double)ChunkSize)
 * consecutive slices, each slice is drawn, and a separator (a BufferChanged
 * notification, preceded by a buffer swap in the point layer) is emitted
 * between consecutive slices but never after the last one.
 *
 * Chunk boundaries are stated through ChunkStart, which adds chunkSize k
 * times; ChunkStartProduct and NumChunksCeiling connect it to the products
 * and the ceiling the source computes.
 */
module Chunking {
  import opened Geometry
  import opened Rendering

  function Min(a: int, b: int): int
  {
    if a < b then a else b
  }

  /** Where chunk k starts: k * chunkSize. */
  function ChunkStart(chunkSize: nat, k: nat): nat
  {
    if k == 0 then 0 else ChunkStart(chunkSize, k - 1) + chunkSize
  }

  lemma {:induction false} ChunkStartProduct(chunkSize: nat, k: nat)
    ensures ChunkStart(chunkSize, k) == k * chunkSize
  {
    if k > 0 {
      ChunkStartProduct(chunkSize, k - 1);
      assert k * chunkSize == (k - 1) * chunkSize + chunkSize;
    }
  }

  lemma {:induction false} ChunkStartMonotone(chunkSize: nat, j: nat, k: nat)
    requires j <= k
    ensures ChunkStart(chunkSize, j) <= ChunkStart(chunkSize, k)
    decreases k
  {
    if j < k {
      ChunkStartMonotone(chunkSize, j, k - 1);
    }
  }

  /** The number of chunks: the least n whose chunks reach past the last item. */
  function NumChunks(count: nat, chunkSize: nat): (n: nat)
    requires chunkSize > 0
    ensures ChunkStart(chunkSize, n) >= count
    ensures n > 0 ==> ChunkStart(chunkSize, n - 1) < count
    ensures n == 0 <==> count == 0
    decreases count
  {
    if count == 0 then 0
    else if count <= chunkSize then 1
    else NumChunks(count - chunkSize, chunkSize) + 1
  }

  /** NumChunks is the ceiling of count / chunkSize, as Math.Ceiling computes it. */
  lemma NumChunksCeiling(count: nat, chunkSize: nat)
    requires chunkSize > 0
    ensures NumChunks(count, chunkSize) * chunkSize >= count
    ensures NumChunks(count, chunkSize) > 0 ==> (NumChunks(count, chunkSize) - 1) * chunkSize < count
    ensures NumChunks(count, chunkSize) == (count + chunkSize - 1) / chunkSize
  {
    var n := NumChunks(count, chunkSize);
    ChunkStartProduct(chunkSize, n);
    if n > 0 {
      ChunkStartProduct(chunkSize, n - 1);
    }
    CeilingUnique(count, chunkSize, n);
  }

  /** The only n with (n - 1) * size < count <= n * size is the rounded-up quotient. */
  lemma CeilingUnique(count: nat, chunkSize: nat, n: nat)
    requires chunkSize > 0
    requires n * chunkSize >= count
    requires n > 0 ==> (n - 1) * chunkSize < count
    requires n == 0 <==> count == 0
    ensures n == (count + chunkSize - 1) / chunkSize
  {
    var q := (count + chunkSize - 1) / chunkSize;
    var r := (count + chunkSize - 1) % chunkSize;
    assert q * chunkSize + r == count + chunkSize - 1;
    if n == 0 {
      assert q * chunkSize <= chunkSize - 1;
      MulLess(q, 1, chunkSize);
    } else {
      assert (n - 1) * chunkSize + chunkSize == n * chunkSize;
      assert q * chunkSize < (n + 1) * chunkSize;
      MulLess(q, n + 1, chunkSize);
      assert (n - 1) * chunkSize < q * chunkSize;
      MulLess(n - 1, q, chunkSize);
    }
  }

  lemma MulLess(a: nat, b: nat, c: nat)
    requires a * c < b * c
    ensures a < b
  {
    if a >= b {
      MulMonotone(b, a, c);
    }
  }

  lemma MulMonotone(a: nat, b: nat, c: nat)
    requires a <= b
    ensures a * c <= b * c
  {
  }

  /** Chunk k starts inside the list, and so does chunk k + 1 unless k is the last. */
  lemma ChunkStartInside(count: nat, chunkSize: nat, k: nat)
    requires chunkSize > 0 && k < NumChunks(count, chunkSize)
    ensures ChunkStart(chunkSize, k) < count
    ensures k < NumChunks(count, chunkSize) - 1 ==> ChunkStart(chunkSize, k + 1) < count
  {
    var n := NumChunks(count, chunkSize);
    ChunkStartMonotone(chunkSize, k, n - 1);
    if k < n - 1 {
      ChunkStartMonotone(chunkSize, k + 1, n - 1);
    }
  }

  /**
   * features.GetRange(k * ChunkSize, numFeatures), numFeatures being ChunkSize
   * except for the last chunk, which takes what is left.
   */
  function ChunkAt<T>(xs: seq<T>, chunkSize: nat, k: nat): (c: seq<T>)
    requires chunkSize > 0 && k < NumChunks(|xs|, chunkSize)
    ensures 1 <= |c| <= chunkSize
    ensures ChunkStart(chunkSize, k) + |c| <= |xs|
    ensures forall j :: 0 <= j < |c| ==> c[j] == xs[ChunkStart(chunkSize, k) + j]
  {
    ChunkStartInside(|xs|, chunkSize, k);
    var n := NumChunks(|xs|, chunkSize);
    var start := ChunkStart(chunkSize, k);
    var numFeatures := if k == n - 1 then |xs| - start else chunkSize;
    seq(numFeatures, j requires 0 <= j < numFeatures => xs[start + j])
  }

  /** A chunk is the slice of the list from its start to the start of the next chunk (or the end). */
  lemma ChunkAtSlice<T>(xs: seq<T>, chunkSize: nat, k: nat)
    requires chunkSize > 0 && k < NumChunks(|xs|, chunkSize)
    ensures ChunkStart(chunkSize, k) < |xs| && ChunkStart(chunkSize, k + 1) == ChunkStart(chunkSize, k) + chunkSize
    ensures ChunkAt(xs, chunkSize, k) == xs[ChunkStart(chunkSize, k) .. Min(ChunkStart(chunkSize, k + 1), |xs|)]
  {
    ChunkStartInside(|xs|, chunkSize, k);
  }

  /** Every item of a chunk is an item of the list. */
  lemma ChunkAtMembers<T>(xs: seq<T>, chunkSize: nat, k: nat)
    requires chunkSize > 0 && k < NumChunks(|xs|, chunkSize)
    ensures forall x :: x in ChunkAt(xs, chunkSize, k) ==> x in xs
  {
    var c := ChunkAt(xs, chunkSize, k);
    forall x | x in c ensures x in xs {
      var j :| 0 <= j < |c| && c[j] == x;
      assert x == xs[ChunkStart(chunkSize, k) + j];
    }
  }

  /** The first k chunks, one after the other. */
  function Chunked<T>(xs: seq<T>, chunkSize: nat, k: nat): seq<T>
    requires chunkSize > 0 && k <= NumChunks(|xs|, chunkSize)
  {
    if k == 0 then [] else Chunked(xs, chunkSize, k - 1) + ChunkAt(xs, chunkSize, k - 1)
  }

  /** The first k chunks are exactly the items before the start of chunk k. */
  lemma {:induction false} ChunkedPrefix<T>(xs: seq<T>, chunkSize: nat, k: nat)
    requires chunkSize > 0 && k <= NumChunks(|xs|, chunkSize)
    ensures Chunked(xs, chunkSize, k) == xs[..Min(ChunkStart(chunkSize, k), |xs|)]
  {
    if k > 0 {
      ChunkedPrefix(xs, chunkSize, k - 1);
      ChunkAtSlice(xs, chunkSize, k - 1);
      var s := ChunkStart(chunkSize, k - 1);
      var e := Min(ChunkStart(chunkSize, k), |xs|);
      assert Min(s, |xs|) == s && s <= e <= |xs|;
      PrefixSplit(xs, s, e);
    }
  }

  lemma PrefixSplit<T>(xs: seq<T>, s: nat, e: nat)
    requires s <= e <= |xs|
    ensures xs[..s] + xs[s..e] == xs[..e]
  {
  }

  /** All the chunks, in order, give back the whole list, and each one is non-empty and at most chunkSize long. */
  lemma ChunksPartition<T>(xs: seq<T>, chunkSize: nat)
    requires chunkSize > 0
    ensures Chunked(xs, chunkSize, NumChunks(|xs|, chunkSize)) == xs
    ensures forall k :: 0 <= k < NumChunks(|xs|, chunkSize) ==> 1 <= |ChunkAt(xs, chunkSize, k)| <= chunkSize
  {
    ChunkedPrefix(xs, chunkSize, NumChunks(|xs|, chunkSize));
    assert xs[..|xs|] == xs;
  }

  /**
   * The events of the first k passes of a chunked run of numChunks chunks:
   * each pass is followed by the separator unless it is the last chunk.
   */
  function RunUpTo(passes: seq<seq<RenderEvent>>, k: nat, numChunks: nat, separator: seq<RenderEvent>): seq<RenderEvent>
    requires k <= |passes|
    decreases k
  {
    if k == 0 then []
    else RunUpTo(passes, k - 1, numChunks, separator) + passes[k - 1] + (if k - 1 < numChunks - 1 then separator else [])
  }

  /** The events of a chunked run whose chunks drawn so far produced `passes`. */
  function ChunkRun(passes: seq<seq<RenderEvent>>, numChunks: nat, separator: seq<RenderEvent>): seq<RenderEvent>
  {
    RunUpTo(passes, |passes|, numChunks, separator)
  }

  /** The first k passes decide the first k steps of the run, whatever comes after them. */
  lemma {:induction false} RunUpToPrefix(passes: seq<seq<RenderEvent>>, more: seq<seq<RenderEvent>>, k: nat, numChunks: nat,
                                         separator: seq<RenderEvent>)
    requires k <= |passes|
    ensures RunUpTo(passes + more, k, numChunks, separator) == RunUpTo(passes, k, numChunks, separator)
    decreases k
  {
    if k > 0 {
      RunUpToPrefix(passes, more, k - 1, numChunks, separator);
      assert (passes + more)[k - 1] == passes[k - 1];
    }
  }

  /** Drawing one more chunk appends its events, and the separator unless it is the last chunk. */
  lemma ChunkRunStep(passes: seq<seq<RenderEvent>>, pass: seq<RenderEvent>, numChunks: nat, separator: seq<RenderEvent>)
    ensures ChunkRun(passes + [pass], numChunks, separator) ==
            ChunkRun(passes, numChunks, separator) + pass + (if |passes| < numChunks - 1 then separator else [])
  {
    RunUpToPrefix(passes, [pass], |passes|, numChunks, separator);
    assert (passes + [pass])[|passes|] == pass;
  }

  /** A log that held a run's first chunks holds one more after that chunk's pass and separator. */
  lemma ChunkRunAppend(start: seq<RenderEvent>, passes: seq<seq<RenderEvent>>, pass: seq<RenderEvent>, numChunks: nat,
                       separator: seq<RenderEvent>, before: seq<RenderEvent>, after: seq<RenderEvent>)
    requires before == start + ChunkRun(passes, numChunks, separator)
    requires after == before + pass + (if |passes| < numChunks - 1 then separator else [])
    ensures after == start + ChunkRun(passes + [pass], numChunks, separator)
  {
    ChunkRunStep(passes, pass, numChunks, separator);
    var run := ChunkRun(passes, numChunks, separator);
    var tail := if |passes| < numChunks - 1 then separator else [];
    assert start + run + pass + tail == start + (run + pass + tail);
  }

  /** The first n chunks of a list, in order. */
  function Chunks<T>(xs: seq<T>, chunkSize: nat, n: nat): (cs: seq<seq<T>>)
    requires chunkSize > 0 && n <= NumChunks(|xs|, chunkSize)
    ensures |cs| == n
    decreases n
  {
    if n == 0 then [] else Chunks(xs, chunkSize, n - 1) + [ChunkAt(xs, chunkSize, n - 1)]
  }

  /** Chunk k of the list of chunks is ChunkAt(xs, chunkSize, k). */
  lemma {:induction false} ChunksAt<T>(xs: seq<T>, chunkSize: nat, n: nat, k: nat)
    requires chunkSize > 0 && n <= NumChunks(|xs|, chunkSize) && k < n
    ensures Chunks(xs, chunkSize, n)[k] == ChunkAt(xs, chunkSize, k)
    decreases n
  {
    if k < n - 1 {
      ChunksAt(xs, chunkSize, n - 1, k);
    }
  }

  /** Every pass is made of drawing calls only. */
  predicate AllDrawOnly(passes: seq<seq<RenderEvent>>)
  {
    forall k :: 0 <= k < |passes| ==> DrawOnly(passes[k])
  }

  lemma AllDrawOnlyAppend(passes: seq<seq<RenderEvent>>, pass: seq<RenderEvent>)
    requires AllDrawOnly(passes) && DrawOnly(pass)
    ensures AllDrawOnly(passes + [pass])
  {
    forall k | 0 <= k < |passes + [pass]| ensures DrawOnly((passes + [pass])[k]) {
      if k < |passes| {
        assert (passes + [pass])[k] == passes[k];
      }
    }
  }

  /** m copies of a count that is 0 or 1. */
  function Times(m: int, one: nat): int
  {
    if one == 0 then 0 else m
  }

  /**
   * With draw-only passes and a separator that notifies (and swaps) at most
   * once, a run that has drawn k of its n chunks has emitted the separator
   * Min(k, n - 1) times.
   */
  lemma {:induction false} RunUpToCounts(passes: seq<seq<RenderEvent>>, k: nat, numChunks: nat, separator: seq<RenderEvent>)
    requires AllDrawOnly(passes) && k <= |passes| && numChunks > 0
    requires CountChanged(separator) <= 1 && CountFinished(separator) <= 1
    ensures CountChanged(RunUpTo(passes, k, numChunks, separator)) == Times(Min(k, numChunks - 1), CountChanged(separator))
    ensures CountFinished(RunUpTo(passes, k, numChunks, separator)) == Times(Min(k, numChunks - 1), CountFinished(separator))
    decreases k
  {
    if k > 0 {
      RunUpToCounts(passes, k - 1, numChunks, separator);
      var before := RunUpTo(passes, k - 1, numChunks, separator);
      var tail := if k - 1 < numChunks - 1 then separator else [];
      CountsOfConcat(before, passes[k - 1]);
      CountsOfConcat(before + passes[k - 1], tail);
      DrawOnlyCountsNothing(passes[k - 1]);
      if k - 1 >= numChunks - 1 {
        assert CountChanged(tail) == 0 && CountFinished(tail) == 0;
      }
    }
  }

  /**
   * A finished run of n draw-only chunks carries n - 1 separators (none for an
   * empty list) and ends with the last chunk's own events.
   */
  lemma FinishedRunCounts(passes: seq<seq<RenderEvent>>, separator: seq<RenderEvent>)
    requires AllDrawOnly(passes)
    requires CountChanged(separator) <= 1 && CountFinished(separator) <= 1
    ensures |passes| > 0 ==> CountChanged(ChunkRun(passes, |passes|, separator)) == Times(|passes| - 1, CountChanged(separator))
    ensures |passes| > 0 ==> CountFinished(ChunkRun(passes, |passes|, separator)) == Times(|passes| - 1, CountFinished(separator))
    ensures |passes| > 0 ==> ChunkRun(passes, |passes|, separator) ==
                             RunUpTo(passes, |passes| - 1, |passes|, separator) + passes[|passes| - 1]
    ensures |passes| == 0 ==> ChunkRun(passes, |passes|, separator) == []
  {
    if |passes| > 0 {
      RunUpToCounts(passes, |passes|, |passes|, separator);
      var k := |passes| - 1;
      assert RunUpTo(passes, k + 1, |passes|, separator) == RunUpTo(passes, k, |passes|, separator) + passes[k] + [];
    }
  }

  /** A finished run of n draw-only chunks separated by BufferChanged notifies n - 1 times and never swaps buffers. */
  lemma SeparatorRunCount(passes: seq<seq<RenderEvent>>, clipRectangles: seq<Rect>)
    requires AllDrawOnly(passes) && |passes| > 0
    ensures CountChanged(ChunkRun(passes, |passes|, [BufferChanged(clipRectangles)])) == |passes| - 1
    ensures CountFinished(ChunkRun(passes, |passes|, [BufferChanged(clipRectangles)])) == 0
  {
    var separator := [BufferChanged(clipRectangles)];
    assert separator[1..] == [];
    assert CountChanged(separator) == 1 && CountFinished(separator) == 0;
    FinishedRunCounts(passes, separator);
  }

  /**
   * A finished run of n draw-only chunks separated by a buffer swap followed
   * by BufferChanged swaps and notifies n - 1 times each.
   */
  lemma SwapSeparatorRunCount(passes: seq<seq<RenderEvent>>, clipRectangles: seq<Rect>)
    requires AllDrawOnly(passes) && |passes| > 0
    ensures CountChanged(ChunkRun(passes, |passes|, [DrawingFinished, BufferChanged(clipRectangles)])) == |passes| - 1
    ensures CountFinished(ChunkRun(passes, |passes|, [DrawingFinished, BufferChanged(clipRectangles)])) == |passes| - 1
  {
    var separator := [DrawingFinished, BufferChanged(clipRectangles)];
    assert separator[1..] == [BufferChanged(clipRectangles)];
    assert separator[1..][1..] == [];
    assert CountChanged(separator[1..]) == 1 && CountFinished(separator[1..]) == 0;
    FinishedRunCounts(passes, separator);
  }
}

/**
 * The WebAssembly depth sorter of the Gaussian-splat renderer
 * (src/viser/client/src/Splatting/WasmSorter/sorter.cpp): the constructor that reads
 * splat centres out of a flat buffer, the first pass that finds the depth range, and
 * the 16-bit counting sort of depth bins into `sorted_indices`. Projecting centres to
 * depths and scaling depths to bins is float arithmetic; the model takes the integer
 * depths and the bins as inputs.
 */
module WasmSorter {
  const NumBins: int := 65536

  datatype Center = Center(x: real, y: real, z: real)

  // ---------------------------------------------------------------- counting

  /** How many entries of s equal b. */
  function Count(s: seq<int>, b: int): nat
  {
    if |s| == 0 then 0 else Count(s[..|s| - 1], b) + (if s[|s| - 1] == b then 1 else 0)
  }

  /** How many entries of s are below b: where the bucket of b starts. */
  function CountLess(s: seq<int>, b: int): nat
  {
    if |s| == 0 then 0 else CountLess(s[..|s| - 1], b) + (if s[|s| - 1] < b then 1 else 0)
  }

  predicate BinsInRange(bins: seq<int>)
  {
    forall i :: 0 <= i < |bins| ==> 0 <= bins[i] < NumBins
  }

  lemma {:induction false} CountLessStep(s: seq<int>, b: int)
    ensures CountLess(s, b + 1) == CountLess(s, b) + Count(s, b)
  {
    if |s| > 0 {
      CountLessStep(s[..|s| - 1], b);
    }
  }

  lemma {:induction false} CountLessMonotone(s: seq<int>, b: int, c: int)
    requires b <= c
    ensures CountLess(s, b) <= CountLess(s, c)
  {
    if |s| > 0 {
      CountLessMonotone(s[..|s| - 1], b, c);
    }
  }

  lemma {:induction false} CountLessBounds(s: seq<int>)
    requires BinsInRange(s)
    ensures CountLess(s, 0) == 0 && CountLess(s, NumBins) == |s|
  {
    if |s| > 0 {
      CountLessBounds(s[..|s| - 1]);
    }
  }

  /** An occurrence of b at j is counted by every prefix that extends past j. */
  lemma {:induction false} CountPrefixGrows(s: seq<int>, j: nat, k: nat)
    requires j < k <= |s|
    ensures Count(s[..j], s[j]) < Count(s[..k], s[j])
    decreases k
  {
    var b := s[j];
    assert s[..k][..k - 1] == s[..k - 1];
    if k - 1 == j {
      assert Count(s[..k], b) == Count(s[..j], b) + 1;
    } else {
      CountPrefixGrows(s, j, k - 1);
    }
  }

  lemma CountWholePrefix(s: seq<int>)
    ensures s[..|s|] == s
  {
  }

  // ---------------------------------------------------------------- positions

  /** Where the counting sort puts index j: after every smaller bin and every earlier j' of the same bin. */
  function Pos(bins: seq<int>, j: nat): int
    requires j < |bins|
  {
    CountLess(bins, bins[j]) + Count(bins[..j], bins[j])
  }

  lemma PosInRange(bins: seq<int>, j: nat)
    requires BinsInRange(bins) && j < |bins|
    ensures 0 <= Pos(bins, j) < |bins|
  {
    var b := bins[j];
    CountPrefixGrows(bins, j, |bins|);
    CountWholePrefix(bins);
    CountLessStep(bins, b);
    CountLessMonotone(bins, b + 1, NumBins);
    CountLessBounds(bins);
  }

  /** Positions order indices by bin, and indices of one bin by their original order. */
  lemma PosOrder(bins: seq<int>, j: nat, k: nat)
    requires BinsInRange(bins) && j < |bins| && k < |bins|
    requires bins[j] < bins[k] || (bins[j] == bins[k] && j < k)
    ensures Pos(bins, j) < Pos(bins, k)
  {
    if bins[j] < bins[k] {
      CountPrefixGrows(bins, j, |bins|);
      CountWholePrefix(bins);
      CountLessStep(bins, bins[j]);
      CountLessMonotone(bins, bins[j] + 1, bins[k]);
    } else {
      CountPrefixGrows(bins, j, k);
    }
  }

  /** Index i gets a slot that no earlier index took. */
  lemma PosDistinct(bins: seq<int>, i: nat)
    requires BinsInRange(bins) && i < |bins|
    ensures forall j :: 0 <= j < i ==> Pos(bins, j) != Pos(bins, i)
  {
    forall j | 0 <= j < i
      ensures Pos(bins, j) != Pos(bins, i)
    {
      if bins[j] <= bins[i] {
        PosOrder(bins, j, i);
      } else {
        PosOrder(bins, i, j);
      }
    }
  }

  function Image(bins: seq<int>, m: nat): set<int>
    requires m <= |bins|
  {
    set j | 0 <= j < m :: Pos(bins, j)
  }

  /** The slots 0..n−1. */
  function Range(n: nat): set<int>
  {
    if n == 0 then {} else Range(n - 1) + {n - 1}
  }

  lemma {:induction false} InRange(n: nat, p: int)
    ensures p in Range(n) <==> 0 <= p < n
  {
    if n > 0 {
      InRange(n - 1, p);
    }
  }

  lemma {:induction false} ImageSize(bins: seq<int>, m: nat)
    requires BinsInRange(bins) && m <= |bins|
    ensures |Image(bins, m)| == m
  {
    if m > 0 {
      ImageSize(bins, m - 1);
      forall j | 0 <= j < m - 1
        ensures Pos(bins, j) != Pos(bins, m - 1)
      {
        if bins[j] <= bins[m - 1] {
          PosOrder(bins, j, m - 1);
        } else {
          PosOrder(bins, m - 1, j);
        }
      }
      assert Image(bins, m) == Image(bins, m - 1) + {Pos(bins, m - 1)};
    }
  }

  lemma {:induction false} RangeSize(n: nat)
    ensures |Range(n)| == n
  {
    if n > 0 {
      RangeSize(n - 1);
      InRange(n - 1, n - 1);
    }
  }

  /** Every slot 0..n−1 is the position of some index. */
  lemma PositionsFillRange(bins: seq<int>, p: int)
    requires BinsInRange(bins) && 0 <= p < |bins|
    ensures exists j :: 0 <= j < |bins| && Pos(bins, j) == p
  {
    var n := |bins|;
    forall q | q in Image(bins, n)
      ensures q in Range(n)
    {
      var j :| 0 <= j < n && Pos(bins, j) == q;
      PosInRange(bins, j);
      InRange(n, q);
    }
    ImageSize(bins, n);
    RangeSize(n);
    assert Range(n) == Image(bins, n) + (Range(n) - Image(bins, n));
    assert |Range(n) - Image(bins, n)| == 0;
    InRange(n, p);
    assert p in Range(n);
  }

  // ---------------------------------------------------------------- depth bins

  /** The gap added to the depth range so that the deepest splat stays below the last bin. */
  const Epsilon: real := 1.0 / 100000.0

  /** 65535 bins spread over the depth range [minDepth, maxDepth], in exact arithmetic. */
  function DepthBin(d: int, minDepth: int, maxDepth: int): (bin: int)
    requires minDepth <= d <= maxDepth
    ensures 0 <= bin < NumBins
  {
    var x := (d - minDepth) as real;
    var span := (maxDepth - minDepth) as real + Epsilon;
    BinBelowMax(x, span);
    (x * 65535.0 / span).Floor
  }

  lemma BinBelowMax(x: real, span: real)
    requires 0.0 <= x < span
    ensures 0.0 <= x * 65535.0 / span < 65535.0
  {
    assert x * 65535.0 < span * 65535.0;
  }

  /** A deeper splat never lands in an earlier bin. */
  lemma DepthBinMonotone(d1: int, d2: int, minDepth: int, maxDepth: int)
    requires minDepth <= d1 <= d2 <= maxDepth
    ensures DepthBin(d1, minDepth, maxDepth) <= DepthBin(d2, minDepth, maxDepth)
  {
    var span := (maxDepth - minDepth) as real + Epsilon;
    var x1, x2 := (d1 - minDepth) as real, (d2 - minDepth) as real;
    assert x1 * 65535.0 <= x2 * 65535.0;
    assert x1 * 65535.0 / span <= x2 * 65535.0 / span;
  }

  /** The least and greatest depth map to the first and the last used bin. */
  lemma DepthBinEnds(minDepth: int, maxDepth: int)
    requires minDepth <= maxDepth
    ensures DepthBin(minDepth, minDepth, maxDepth) == 0
    ensures maxDepth - minDepth >= 1 ==> DepthBin(maxDepth, minDepth, maxDepth) == 65534
  {
    var span := (maxDepth - minDepth) as real + Epsilon;
    if maxDepth - minDepth >= 1 {
      var y := (maxDepth - minDepth) as real * 65535.0 / span;
      assert 65535.0 - y == 65535.0 * Epsilon / span;
      assert 65535.0 * Epsilon / span <= 65535.0 * Epsilon;
      assert 65534.0 <= y;
      BinBelowMax((maxDepth - minDepth) as real, span);
    }
  }

  function Bins(depths: seq<int>, minDepth: int, maxDepth: int): (bins: seq<int>)
    requires forall i :: 0 <= i < |depths| ==> minDepth <= depths[i] <= maxDepth
    ensures |bins| == |depths| && BinsInRange(bins)
    ensures forall i :: 0 <= i < |depths| ==> bins[i] == DepthBin(depths[i], minDepth, maxDepth)
  {
    seq(|depths|, i requires 0 <= i < |depths| => DepthBin(depths[i], minDepth, maxDepth))
  }

  /** Along a stable sort by bin, two splats appear out of depth order only when they share a bin. */
  lemma InversionsShareABin(depths: seq<int>, minDepth: int, maxDepth: int, out: seq<int>, p: int, q: int)
    requires forall i :: 0 <= i < |depths| ==> minDepth <= depths[i] <= maxDepth
    requires StableSortByBin(Bins(depths, minDepth, maxDepth), out)
    requires 0 <= p < q < |out| && depths[out[p]] > depths[out[q]]
    ensures Bins(depths, minDepth, maxDepth)[out[p]] == Bins(depths, minDepth, maxDepth)[out[q]]
  {
    DepthBinMonotone(depths[out[q]], depths[out[p]], minDepth, maxDepth);
  }

  // ---------------------------------------------------------------- the sort's result

  /** What the placement loop leaves: index j stored at its position. */
  predicate PlacedAtPositions(bins: seq<int>, out: seq<int>)
    requires BinsInRange(bins)
  {
    |out| == |bins| && forall j :: 0 <= j < |bins| ==> 0 <= Pos(bins, j) < |out| && out[Pos(bins, j)] == j
  }

  /** A permutation of 0..n−1 along which bins never decrease and equal bins keep their order. */
  predicate StableSortByBin(bins: seq<int>, out: seq<int>)
  {
    && |out| == |bins|
    && (forall p :: 0 <= p < |out| ==> 0 <= out[p] < |bins|)
    && (forall p, q :: 0 <= p < q < |out| ==> out[p] != out[q])
    && (forall p, q :: 0 <= p < q < |out| ==> bins[out[p]] <= bins[out[q]])
    && (forall p, q :: 0 <= p < q < |out| && bins[out[p]] == bins[out[q]] ==> out[p] < out[q])
  }

  /** Placing every index at its position is a stable sort by bin. */
  lemma PlacementIsStableSort(bins: seq<int>, out: seq<int>)
    requires BinsInRange(bins) && PlacedAtPositions(bins, out)
    ensures StableSortByBin(bins, out)
  {
    var n := |bins|;
    forall p | 0 <= p < n
      ensures 0 <= out[p] < n && Pos(bins, out[p]) == p
    {
      PositionsFillRange(bins, p);
      var j :| 0 <= j < n && Pos(bins, j) == p;
      assert out[p] == j;
    }
    forall p, q | 0 <= p < q < n
      ensures bins[out[p]] <= bins[out[q]]
      ensures bins[out[p]] == bins[out[q]] ==> out[p] < out[q]
    {
      var j, k := out[p], out[q];
      if bins[k] < bins[j] || (bins[k] == bins[j] && k < j) {
        PosOrder(bins, k, j);
      }
    }
  }

  // ---------------------------------------------------------------- the sorter object

  class Sorter {
    var unsortedCenters: seq<Center>
    var sortedIndices: array<int>

    /** The number of splats is a quarter of the buffer; the fourth value of each group is skipped. */
    constructor (buffer: seq<real>)
      ensures |unsortedCenters| == |buffer| / 4
      ensures forall i :: 0 <= i < |unsortedCenters| ==>
                unsortedCenters[i] == Center(buffer[4 * i], buffer[4 * i + 1], buffer[4 * i + 2])
      ensures sortedIndices.Length == 0
    {
      var numGaussians := |buffer| / 4;
      var centers: seq<Center> := [];
      var i := 0;
      while i < numGaussians
        invariant 0 <= i <= numGaussians && |centers| == i
        invariant forall k :: 0 <= k < i ==> centers[k] == Center(buffer[4 * k], buffer[4 * k + 1], buffer[4 * k + 2])
      {
        centers := centers + [Center(buffer[i * 4 + 0], buffer[i * 4 + 1], buffer[i * 4 + 2])];
        i := i + 1;
      }
      unsortedCenters := centers;
      sortedIndices := new int[0];
    }

    /** The first pass of `sort`: the least and greatest depth. */
    static method DepthRange(depths: seq<int>) returns (minDepth: int, maxDepth: int)
      requires |depths| > 0
      ensures forall i :: 0 <= i < |depths| ==> minDepth <= depths[i] <= maxDepth
      ensures minDepth in depths && maxDepth in depths
    {
      minDepth, maxDepth := depths[0], depths[0];
      var i := 1;
      while i < |depths|
        invariant 1 <= i <= |depths|
        invariant forall k :: 0 <= k < i ==> minDepth <= depths[k] <= maxDepth
        invariant minDepth in depths[..i] && maxDepth in depths[..i]
      {
        if depths[i] < minDepth {
          minDepth := depths[i];
        }
        if depths[i] > maxDepth {
          maxDepth := depths[i];
        }
        i := i + 1;
      }
      assert depths[..i] == depths;
    }

    /** The counting pass of `sort`: counts0[b] is the number of splats in bin b. */
    static method CountBins(bins: seq<int>) returns (counts0: array<int>)
      requires BinsInRange(bins)
      ensures fresh(counts0) && counts0.Length == NumBins
      ensures forall b :: 0 <= b < NumBins ==> counts0[b] == Count(bins, b)
    {
      counts0 := new int[NumBins](_ => 0);
      var i := 0;
      while i < |bins|
        modifies counts0
        invariant 0 <= i <= |bins|
        invariant forall b :: 0 <= b < NumBins ==> counts0[b] == Count(bins[..i], b)
      {
        assert bins[..i + 1][..i] == bins[..i];
        counts0[bins[i]] := counts0[bins[i]] + 1;
        i := i + 1;
      }
      assert bins[..i] == bins;
    }

    /** The prefix-sum pass of `sort`: starts0[b] is the first slot of bin b. */
    static method BucketStarts(bins: seq<int>, counts0: array<int>) returns (starts0: array<int>)
      requires BinsInRange(bins) && counts0.Length == NumBins
      requires forall b :: 0 <= b < NumBins ==> counts0[b] == Count(bins, b)
      ensures fresh(starts0) && starts0.Length == NumBins
      ensures forall b :: 0 <= b < NumBins ==> starts0[b] == CountLess(bins, b)
    {
      starts0 := new int[NumBins](_ => 0);
      CountLessBounds(bins);
      var k := 1;
      while k < NumBins
        modifies starts0
        invariant 1 <= k <= NumBins
        invariant forall b :: 0 <= b < k ==> starts0[b] == CountLess(bins, b)
      {
        CountLessStep(bins, k - 1);
        starts0[k] := starts0[k - 1] + counts0[k - 1];
        k := k + 1;
      }
    }

    /** The placement pass of `sort`: each index goes to the next free slot of its bin. */
    static method Place(bins: seq<int>, starts0: array<int>) returns (sorted: array<int>)
      requires BinsInRange(bins) && starts0.Length == NumBins
      requires forall b :: 0 <= b < NumBins ==> starts0[b] == CountLess(bins, b)
      modifies starts0
      ensures fresh(sorted) && PlacedAtPositions(bins, sorted[..])
    {
      var n := |bins|;
      sorted := new int[n];
      var i := 0;
      while i < n
        modifies starts0, sorted
        invariant 0 <= i <= n
        invariant forall b :: 0 <= b < NumBins ==> starts0[b] == CountLess(bins, b) + Count(bins[..i], b)
        invariant forall j :: 0 <= j < i ==> 0 <= Pos(bins, j) < n && sorted[Pos(bins, j)] == j
      {
        var b := bins[i];
        PosInRange(bins, i);
        PosDistinct(bins, i);
        assert bins[..i + 1][..i] == bins[..i];
        sorted[starts0[b]] := i;
        starts0[b] := starts0[b] + 1;
        i := i + 1;
      }
    }

    /**
     * `sort`, from the integer depths on: find the depth range, bin every depth, count
     * each bin, turn the counts into bucket starts, then drop every index into the next
     * free slot of its bucket.
     */
    method Sort(depths: seq<int>)
      requires |depths| == |unsortedCenters|
      modifies this
      ensures fresh(sortedIndices) && unsortedCenters == old(unsortedCenters)
      ensures |depths| == 0 ==> sortedIndices.Length == 0
      ensures |depths| > 0 ==>
                exists minDepth, maxDepth ::
                  && minDepth in depths && maxDepth in depths
                  && (forall i :: 0 <= i < |depths| ==> minDepth <= depths[i] <= maxDepth)
                  && StableSortByBin(Bins(depths, minDepth, maxDepth), sortedIndices[..])
    {
      if |depths| == 0 {
        sortedIndices := new int[0];
        return;
      }
      var minDepth, maxDepth := DepthRange(depths);
      var bins := Bins(depths, minDepth, maxDepth);
      var counts0 := CountBins(bins);
      var starts0 := BucketStarts(bins, counts0);
      var sorted := Place(bins, starts0);
      sortedIndices := sorted;
      PlacementIsStableSort(bins, sorted[..]);
    }
  }
}

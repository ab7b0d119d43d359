/**
 * The animated model of zenith/cpp/GLModel.cpp: the two offset tables that are
 * built once from the records' timestamps (createTimeSteps), the wrap-around
 * playback step (timeUpdate), the play/pause frame gate of render and the run
 * of records that render draws.
 *
 * The two scans of createTimeSteps never compare their write index with the
 * number of allocated entries. The functions StartBoundaries and EndBoundaries
 * give what the scans write as written, without any bound; the method
 * GLModelAnimated.CreateTimeSteps is the corrected construction: it keeps
 * every write inside the allocation and gives the entries the scans never
 * reach the value numVertices (the end of the record run) instead of leaving
 * them uninitialised.
 */
module Animation {
  import opened Wrappers

  /** Timestamps never decrease, so the first and last record hold the minimum and maximum. */
  ghost predicate Sorted(t: seq<int>)
  {
    forall i, j :: 0 <= i <= j < |t| ==> t[i] <= t[j]
  }

  /** numSteps: the span between the first and the last timestamp, in whole steps. */
  function NumSteps(t: seq<int>, stepSize: nat): (n: nat)
    requires |t| > 0 && Sorted(t) && stepSize > 0
    ensures n * stepSize <= t[|t| - 1] - t[0] < (n + 1) * stepSize
  {
    (t[|t| - 1] - t[0]) / stepSize
  }

  // ---------------------------------------------------------------------------
  // The boundary scan shared by both loops of createTimeSteps
  // ---------------------------------------------------------------------------

  /**
   * The record indices at which one scan of createTimeSteps records a boundary,
   * scanning from record i with the boundary time at cur: record j is recorded
   * when cur + lead < t[j], and the boundary time then moves on by one step.
   */
  function Crossings(t: seq<int>, i: nat, cur: int, step: int, lead: int): seq<nat>
    requires i <= |t|
    decreases |t| - i
  {
    if i == |t| then []
    else if cur + lead < t[i] then [i] + Crossings(t, i + 1, cur + step, step, lead)
    else Crossings(t, i + 1, cur, step, lead)
  }

  /** The first record the scan looks at after recording k boundaries. */
  function After(c: seq<nat>, i: nat, k: nat): nat
    requires k <= |c|
  {
    if k == 0 then i else c[k - 1] + 1
  }

  /** The boundary time after k recorded boundaries: cur moved on by k steps. */
  function Boundary(cur: int, step: int, k: nat): int
  {
    if k == 0 then cur else Boundary(cur, step, k - 1) + step
  }

  lemma {:induction false} BoundaryShift(cur: int, step: int, k: nat)
    ensures Boundary(cur + step, step, k) == Boundary(cur, step, k + 1)
  {
    if k > 0 {
      BoundaryShift(cur, step, k - 1);
    }
  }

  lemma {:induction false} BoundaryIsLinear(cur: int, step: int, k: nat)
    ensures Boundary(cur, step, k) == cur + k * step
  {
    if k > 0 {
      BoundaryIsLinear(cur, step, k - 1);
    }
  }

  /** The recorded indices lie in [i, |t|) and strictly increase. */
  ghost predicate Increasing(t: seq<int>, i: nat, c: seq<nat>)
  {
    && (forall k :: 0 <= k < |c| ==> i <= c[k] < |t|)
    && (forall a, b :: 0 <= a < b < |c| ==> c[a] < c[b])
  }

  /** The k-th recorded record is later than the k-th boundary time plus lead. */
  ghost predicate Passes(t: seq<int>, cur: int, step: int, lead: int, c: seq<nat>)
  {
    forall k :: 0 <= k < |c| && c[k] < |t| ==> Boundary(cur, step, k) + lead < t[c[k]]
  }

  /**
   * Every record the scan passes over before recording the k-th boundary is
   * not later than the k-th boundary time plus lead.
   */
  ghost predicate SkipsBetween(t: seq<int>, i: nat, cur: int, step: int, lead: int, c: seq<nat>)
  {
    forall k, j {:trigger After(c, i, k), t[j]} :: 0 <= k < |c| && After(c, i, k) <= j < c[k] && j < |t| ==> t[j] <= Boundary(cur, step, k) + lead
  }

  /** No record after the last recorded one passes the boundary time in force. */
  ghost predicate SkipsTail(t: seq<int>, i: nat, cur: int, step: int, lead: int, c: seq<nat>)
  {
    forall j :: After(c, i, |c|) <= j < |t| ==> t[j] <= Boundary(cur, step, |c|) + lead
  }

  /** Strictly increasing indices in [i, |t|) number at most |t| - i. */
  lemma {:induction false} IncreasingLength(t: seq<int>, i: nat, c: seq<nat>)
    requires i <= |t| && Increasing(t, i, c)
    ensures |c| <= |t| - i
    decreases |c|
  {
    if |c| > 0 {
      var r := c[1..];
      forall k | 0 <= k < |r| ensures c[0] + 1 <= r[k] < |t| {
        assert r[k] == c[k + 1];
      }
      forall a, b | 0 <= a < b < |r| ensures r[a] < r[b] {
        assert r[a] == c[a + 1] && r[b] == c[b + 1];
      }
      IncreasingLength(t, c[0] + 1, r);
      assert i <= c[0];
    }
  }

  /** What a scan result means, independently of how the scan runs. */
  ghost predicate IsCrossingSeq(t: seq<int>, i: nat, cur: int, step: int, lead: int, c: seq<nat>)
  {
    && Increasing(t, i, c) && Passes(t, cur, step, lead, c)
    && SkipsBetween(t, i, cur, step, lead, c) && SkipsTail(t, i, cur, step, lead, c)
  }

  lemma {:induction false} CrossingsIncreasing(t: seq<int>, i: nat, cur: int, step: int, lead: int)
    requires i <= |t|
    ensures Increasing(t, i, Crossings(t, i, cur, step, lead))
    decreases |t| - i
  {
    if i < |t| {
      var c := Crossings(t, i, cur, step, lead);
      if cur + lead < t[i] {
        var r := Crossings(t, i + 1, cur + step, step, lead);
        CrossingsIncreasing(t, i + 1, cur + step, step, lead);
        assert c == [i] + r;
        assert forall k :: 1 <= k < |c| ==> c[k] == r[k - 1];
      } else {
        CrossingsIncreasing(t, i + 1, cur, step, lead);
      }
    }
  }

  lemma {:induction false} CrossingsPass(t: seq<int>, i: nat, cur: int, step: int, lead: int)
    requires i <= |t|
    ensures Passes(t, cur, step, lead, Crossings(t, i, cur, step, lead))
    decreases |t| - i
  {
    if i < |t| {
      var c := Crossings(t, i, cur, step, lead);
      if cur + lead < t[i] {
        var r := Crossings(t, i + 1, cur + step, step, lead);
        CrossingsPass(t, i + 1, cur + step, step, lead);
        assert c == [i] + r;
        forall k | 0 <= k < |c| && c[k] < |t| ensures Boundary(cur, step, k) + lead < t[c[k]] {
          if k > 0 {
            assert c[k] == r[k - 1];
            BoundaryShift(cur, step, k - 1);
          }
        }
      } else {
        CrossingsPass(t, i + 1, cur, step, lead);
      }
    }
  }

  lemma {:induction false} CrossingsSkipBetween(t: seq<int>, i: nat, cur: int, step: int, lead: int)
    requires i <= |t|
    ensures SkipsBetween(t, i, cur, step, lead, Crossings(t, i, cur, step, lead))
    decreases |t| - i
  {
    if i < |t| {
      var c := Crossings(t, i, cur, step, lead);
      if cur + lead < t[i] {
        var r := Crossings(t, i + 1, cur + step, step, lead);
        CrossingsSkipBetween(t, i + 1, cur + step, step, lead);
        assert c == [i] + r;
        forall k, j | 0 <= k < |c| && After(c, i, k) <= j < c[k] && j < |t| ensures t[j] <= Boundary(cur, step, k) + lead {
          assert k > 0;
          assert After(c, i, k) == After(r, i + 1, k - 1);
          assert c[k] == r[k - 1];
          BoundaryShift(cur, step, k - 1);
        }
      } else {
        CrossingsSkipBetween(t, i + 1, cur, step, lead);
        forall k, j | 0 <= k < |c| && After(c, i, k) <= j < c[k] && j < |t| ensures t[j] <= Boundary(cur, step, k) + lead {
          if k > 0 || j > i {
            assert After(c, i + 1, k) <= j;
          }
        }
      }
    }
  }

  lemma {:induction false} CrossingsSkipTail(t: seq<int>, i: nat, cur: int, step: int, lead: int)
    requires i <= |t|
    ensures SkipsTail(t, i, cur, step, lead, Crossings(t, i, cur, step, lead))
    decreases |t| - i
  {
    if i < |t| {
      var c := Crossings(t, i, cur, step, lead);
      if cur + lead < t[i] {
        var r := Crossings(t, i + 1, cur + step, step, lead);
        CrossingsSkipTail(t, i + 1, cur + step, step, lead);
        assert c == [i] + r;
        assert After(c, i, |c|) == After(r, i + 1, |r|);
        BoundaryShift(cur, step, |r|);
      } else {
        CrossingsSkipTail(t, i + 1, cur, step, lead);
        assert |c| > 0 ==> After(c, i, |c|) == After(c, i + 1, |c|);
      }
    }
  }

  /** The scan meets its declarative description. */
  lemma CrossingsSound(t: seq<int>, i: nat, cur: int, step: int, lead: int)
    requires i <= |t|
    ensures IsCrossingSeq(t, i, cur, step, lead, Crossings(t, i, cur, step, lead))
  {
    CrossingsIncreasing(t, i, cur, step, lead);
    CrossingsPass(t, i, cur, step, lead);
    CrossingsSkipBetween(t, i, cur, step, lead);
    CrossingsSkipTail(t, i, cur, step, lead);
  }

  /** Under the description, record i is recorded exactly when it passes the current boundary. */
  lemma CrossingSeqHead(t: seq<int>, i: nat, cur: int, step: int, lead: int, c: seq<nat>)
    requires i < |t| && IsCrossingSeq(t, i, cur, step, lead, c)
    ensures (|c| > 0 && c[0] == i) <==> cur + lead < t[i]
  {
    assert Boundary(cur, step, 0) == cur;
    assert |c| == 0 ==> After(c, i, 0) <= i;
    assert |c| > 0 && i < c[0] ==> After(c, i, 0) <= i < c[0];
  }

  lemma CrossingSeqTail(t: seq<int>, i: nat, cur: int, step: int, lead: int, c: seq<nat>)
    requires i < |t| && IsCrossingSeq(t, i, cur, step, lead, c)
    requires |c| > 0 && c[0] == i
    ensures IsCrossingSeq(t, i + 1, cur + step, step, lead, c[1..])
  {
    var r := c[1..];
    assert Increasing(t, i + 1, r) by {
      forall k | 0 <= k < |r| ensures i + 1 <= r[k] < |t| {
        assert r[k] == c[k + 1];
        assert c[0] < c[k + 1];
      }
      forall a, b | 0 <= a < b < |r| ensures r[a] < r[b] {
        assert r[a] == c[a + 1] && r[b] == c[b + 1];
      }
    }
    assert Passes(t, cur + step, step, lead, r) by {
      forall k | 0 <= k < |r| && r[k] < |t| ensures Boundary(cur + step, step, k) + lead < t[r[k]] {
        assert r[k] == c[k + 1];
        BoundaryShift(cur, step, k);
      }
    }
    assert SkipsBetween(t, i + 1, cur + step, step, lead, r) by {
      forall k, j | 0 <= k < |r| && After(r, i + 1, k) <= j < r[k] && j < |t| ensures t[j] <= Boundary(cur + step, step, k) + lead {
        assert After(r, i + 1, k) == After(c, i, k + 1);
        assert r[k] == c[k + 1];
        BoundaryShift(cur, step, k);
      }
    }
    assert SkipsTail(t, i + 1, cur + step, step, lead, r) by {
      assert After(r, i + 1, |r|) == After(c, i, |c|);
      BoundaryShift(cur, step, |r|);
    }
  }

  lemma CrossingSeqDrop(t: seq<int>, i: nat, cur: int, step: int, lead: int, c: seq<nat>)
    requires i < |t| && IsCrossingSeq(t, i, cur, step, lead, c)
    requires |c| == 0 || c[0] != i
    ensures IsCrossingSeq(t, i + 1, cur, step, lead, c)
  {
    assert forall k :: 0 <= k < |c| ==> c[0] <= c[k];
    forall k, j | 0 <= k < |c| && After(c, i + 1, k) <= j < c[k] && j < |t| ensures t[j] <= Boundary(cur, step, k) + lead {
      assert After(c, i, k) <= After(c, i + 1, k);
    }
    assert After(c, i, |c|) <= After(c, i + 1, |c|);
  }

  /** Only the scan result meets the description: the description is complete. */
  lemma {:induction false} CrossingsUnique(t: seq<int>, i: nat, cur: int, step: int, lead: int, c: seq<nat>)
    requires i <= |t|
    ensures IsCrossingSeq(t, i, cur, step, lead, c) ==> c == Crossings(t, i, cur, step, lead)
    decreases |t| - i
  {
    if IsCrossingSeq(t, i, cur, step, lead, c) {
      if i == |t| {
        IncreasingLength(t, i, c);
      } else if cur + lead < t[i] {
        CrossingSeqHead(t, i, cur, step, lead, c);
        CrossingSeqTail(t, i, cur, step, lead, c);
        CrossingsUnique(t, i + 1, cur + step, step, lead, c[1..]);
        CrossingsStep(t, i, cur, step, lead);
        assert c == [i] + c[1..];
      } else {
        CrossingSeqHead(t, i, cur, step, lead, c);
        CrossingSeqDrop(t, i, cur, step, lead, c);
        CrossingsUnique(t, i + 1, cur, step, lead, c);
      }
    }
  }

  /** One iteration of a scan loop: the records still to scan after recording or passing record i. */
  lemma ScanStep(t: seq<int>, i: nat, cur: int, step: int, lead: int, found: seq<nat>, total: seq<nat>)
    requires i < |t| && total == found + Crossings(t, i, cur, step, lead)
    ensures cur + lead < t[i] ==> total == (found + [i]) + Crossings(t, i + 1, cur + step, step, lead)
    ensures t[i] <= cur + lead ==> total == found + Crossings(t, i + 1, cur, step, lead)
  {
    CrossingsStep(t, i, cur, step, lead);
    if cur + lead < t[i] {
      assert found + ([i] + Crossings(t, i + 1, cur + step, step, lead))
          == (found + [i]) + Crossings(t, i + 1, cur + step, step, lead);
    }
  }

  /** One record of the scan. */
  lemma CrossingsStep(t: seq<int>, i: nat, cur: int, step: int, lead: int)
    requires i < |t|
    ensures Crossings(t, i, cur, step, lead) ==
            if cur + lead < t[i] then [i] + Crossings(t, i + 1, cur + step, step, lead)
            else Crossings(t, i + 1, cur, step, lead)
  {
  }

  /** With sorted timestamps the last boundary recorded stays below the last timestamp. */
  lemma CrossingsLastBound(t: seq<int>, i: nat, cur: int, step: int, lead: int)
    requires i <= |t| && Sorted(t)
    requires |Crossings(t, i, cur, step, lead)| > 0
    ensures cur + (|Crossings(t, i, cur, step, lead)| - 1) * step + lead < t[|t| - 1]
  {
    var c := Crossings(t, i, cur, step, lead);
    CrossingsIncreasing(t, i, cur, step, lead);
    CrossingsPass(t, i, cur, step, lead);
    var k := |c| - 1;
    BoundaryIsLinear(cur, step, k);
    assert Boundary(cur, step, k) + lead < t[c[k]];
    assert t[c[k]] <= t[|t| - 1];
  }

  // ---------------------------------------------------------------------------
  // The two offset scans, as written
  // ---------------------------------------------------------------------------

  /**
   * Every value the first loop of createTimeSteps writes into startOffsets, in
   * order: 0 at index 0, then one entry per record that passes the boundary,
   * with no bound on the number of entries.
   */
  function StartBoundaries(t: seq<int>, stepSize: nat): seq<nat>
    requires |t| > 0
  {
    [0] + Crossings(t, 0, t[0], stepSize, stepSize)
  }

  /** Every value the second loop writes into endOffsets; its boundary trails by windowSize. */
  function EndBoundaries(t: seq<int>, stepSize: nat, windowSize: nat): seq<nat>
    requires |t| > 0
  {
    Crossings(t, 0, t[0], stepSize, stepSize + windowSize)
  }

  /**
   * startOffsets as written: it starts with 0, the later entries are record
   * indices in [1, numVertices) and the entries strictly increase, so a gap in
   * time never records the same record twice.
   */
  lemma StartBoundariesShape(t: seq<int>, stepSize: nat)
    requires |t| > 0
    ensures StartBoundaries(t, stepSize)[0] == 0
    ensures forall k :: 1 <= k < |StartBoundaries(t, stepSize)| ==> 1 <= StartBoundaries(t, stepSize)[k] < |t|
    ensures forall a, b :: 0 <= a < b < |StartBoundaries(t, stepSize)| ==> StartBoundaries(t, stepSize)[a] < StartBoundaries(t, stepSize)[b]
  {
    var c := Crossings(t, 0, t[0], stepSize, stepSize);
    CrossingsIncreasing(t, 0, t[0], stepSize, stepSize);
    CrossingsPass(t, 0, t[0], stepSize, stepSize);
    assert |c| > 0 ==> c[0] != 0 by {
      assert |c| > 0 ==> t[0] + 0 * stepSize + stepSize < t[c[0]];
    }
    assert forall k :: 0 <= k < |c| ==> c[0] <= c[k];
    var s := StartBoundaries(t, stepSize);
    assert s == [0] + c;
    assert forall k :: 1 <= k < |s| ==> s[k] == c[k - 1];
  }

  /** endOffsets as written: record indices in [1, numVertices), strictly increasing. */
  lemma EndBoundariesShape(t: seq<int>, stepSize: nat, windowSize: nat)
    requires |t| > 0
    ensures forall k :: 0 <= k < |EndBoundaries(t, stepSize, windowSize)| ==> 1 <= EndBoundaries(t, stepSize, windowSize)[k] < |t|
    ensures forall a, b :: 0 <= a < b < |EndBoundaries(t, stepSize, windowSize)| ==> EndBoundaries(t, stepSize, windowSize)[a] < EndBoundaries(t, stepSize, windowSize)[b]
  {
    var c := EndBoundaries(t, stepSize, windowSize);
    CrossingsIncreasing(t, 0, t[0], stepSize, stepSize + windowSize);
    CrossingsPass(t, 0, t[0], stepSize, stepSize + windowSize);
    assert |c| > 0 ==> c[0] != 0 by {
      assert |c| > 0 ==> t[0] + 0 * stepSize + stepSize + windowSize < t[c[0]];
    }
    assert forall k :: 0 <= k < |c| ==> c[0] <= c[k];
  }

  lemma MulLeIsLe(a: int, b: int, s: int)
    requires s > 0 && a * s < (b + 1) * s
    ensures a <= b
  {
    assert (b + 1 - a) * s > 0;
  }

  /** The second loop never writes past its allocation of numSteps entries. */
  lemma EndBoundariesFit(t: seq<int>, stepSize: nat, windowSize: nat)
    requires |t| > 0 && Sorted(t) && stepSize > 0
    ensures |EndBoundaries(t, stepSize, windowSize)| <= NumSteps(t, stepSize)
  {
    var c := EndBoundaries(t, stepSize, windowSize);
    var n := NumSteps(t, stepSize);
    if |c| > 0 {
      CrossingsLastBound(t, 0, t[0], stepSize, stepSize + windowSize);
      var k := |c|;
      assert t[0] + (k - 1) * stepSize + stepSize + windowSize < t[|t| - 1];
      assert (k - 1) * stepSize + stepSize == k * stepSize;
      assert k * stepSize < (n + 1) * stepSize;
      MulLeIsLe(k, n, stepSize);
    }
  }

  /**
   * The first loop stays inside its allocation when the span of the timestamps
   * is a positive whole number of steps.
   */
  lemma StartBoundariesFitWhenDivisible(t: seq<int>, stepSize: nat)
    requires |t| > 0 && Sorted(t) && stepSize > 0
    requires t[|t| - 1] - t[0] >= stepSize && (t[|t| - 1] - t[0]) % stepSize == 0
    ensures |StartBoundaries(t, stepSize)| <= NumSteps(t, stepSize)
  {
    var c := Crossings(t, 0, t[0], stepSize, stepSize);
    var n := NumSteps(t, stepSize);
    assert t[|t| - 1] - t[0] == n * stepSize;
    assert n >= 1 by {
      MulLeIsLe(1, n, stepSize);
    }
    if |c| > 0 {
      CrossingsLastBound(t, 0, t[0], stepSize, stepSize);
      var k := |c|;
      assert (k - 1) * stepSize + stepSize == k * stepSize;
      assert k * stepSize < n * stepSize;
      MulLeIsLe(k, n - 1, stepSize);
    }
  }

  /**
   * Timestamps [0, 3, 5] with step 2: numSteps is 2, yet the first loop writes
   * three entries, the last one at startOffsets[2], past the allocation.
   */
  lemma StartScanOverflows()
    ensures Sorted([0, 3, 5]) && NumSteps([0, 3, 5], 2) == 2
    ensures StartBoundaries([0, 3, 5], 2) == [0, 1, 2]
  {
    assert Crossings([0, 3, 5], 3, 4, 2, 2) == [];
    assert Crossings([0, 3, 5], 2, 2, 2, 2) == [2];
    assert Crossings([0, 3, 5], 1, 0, 2, 2) == [1, 2];
  }

  /** A single record gives numSteps 0, yet startOffsets[0] is still written. */
  lemma SingleRecordOverflows(t0: int)
    ensures Sorted([t0]) && NumSteps([t0], 1) == 0
    ensures StartBoundaries([t0], 1) == [0]
  {
    assert Crossings([t0], 1, t0, 1, 1) == [];
  }

  // ---------------------------------------------------------------------------
  // The offset tables the model keeps
  // ---------------------------------------------------------------------------

  /** numSteps entries: the first numSteps values of a scan, then fill where the scan stops short. */
  function OffsetTable(scan: seq<nat>, numSteps: nat, fill: nat): (r: seq<nat>)
    ensures |r| == numSteps
    ensures forall k :: 0 <= k < numSteps ==> r[k] == if k < |scan| then scan[k] else fill
  {
    seq(numSteps, k requires 0 <= k < numSteps => if k < |scan| then scan[k] else fill)
  }

  lemma OffsetTableSnoc(scan: seq<nat>, x: nat, numSteps: nat, fill: nat)
    ensures OffsetTable(scan + [x], numSteps, fill) ==
            if |scan| < numSteps then OffsetTable(scan, numSteps, fill)[|scan| := x]
            else OffsetTable(scan, numSteps, fill)
  {
    var a := OffsetTable(scan + [x], numSteps, fill);
    var b := OffsetTable(scan, numSteps, fill);
    if |scan| < numSteps {
      assert forall k :: 0 <= k < numSteps ==> a[k] == b[|scan| := x][k];
    } else {
      assert forall k :: 0 <= k < numSteps ==> a[k] == b[k];
    }
  }

  /** A strictly increasing scan of indices below fill gives a non-decreasing table bounded by fill. */
  lemma OffsetTableOrdered(scan: seq<nat>, numSteps: nat, fill: nat)
    requires forall a, b :: 0 <= a < b < |scan| ==> scan[a] < scan[b]
    requires forall k :: 0 <= k < |scan| ==> scan[k] < fill
    ensures forall a, b :: 0 <= a <= b < numSteps ==> OffsetTable(scan, numSteps, fill)[a] <= OffsetTable(scan, numSteps, fill)[b]
    ensures forall k :: 0 <= k < numSteps ==> OffsetTable(scan, numSteps, fill)[k] <= fill
  {
  }

  /**
   * Both tables the model keeps are non-decreasing and bounded by the number of
   * records, and the start table begins with 0.
   */
  lemma TablesOrdered(t: seq<int>, stepSize: nat, windowSize: nat, numSteps: nat)
    requires |t| > 0
    ensures var s := OffsetTable(StartBoundaries(t, stepSize), numSteps, |t|);
            (numSteps > 0 ==> s[0] == 0) &&
            (forall a, b :: 0 <= a <= b < numSteps ==> s[a] <= s[b]) &&
            (forall k :: 0 <= k < numSteps ==> s[k] <= |t|)
    ensures var e := OffsetTable(EndBoundaries(t, stepSize, windowSize), numSteps, |t|);
            (forall a, b :: 0 <= a <= b < numSteps ==> e[a] <= e[b]) &&
            (forall k :: 0 <= k < numSteps ==> e[k] <= |t|)
  {
    StartBoundariesShape(t, stepSize);
    EndBoundariesShape(t, stepSize, windowSize);
    OffsetTableOrdered(StartBoundaries(t, stepSize), numSteps, |t|);
    OffsetTableOrdered(EndBoundaries(t, stepSize, windowSize), numSteps, |t|);
  }

  // ---------------------------------------------------------------------------
  // The playback step machine of timeUpdate
  // ---------------------------------------------------------------------------

  /** curIndex after timeUpdate(next): back to 0 from the last step, else advanced by next. */
  function NextIndex(cur: nat, next: nat, numSteps: nat): nat
  {
    if cur >= numSteps - 1 then 0 else cur + next
  }

  /** endStep after timeUpdate: windowSteps beyond curIndex, clamped to the last step. */
  function WindowEnd(cur: nat, windowSteps: nat, numSteps: nat): int
  {
    if cur + windowSteps > numSteps - 1 then numSteps - 1 else cur + windowSteps
  }

  /** With curIndex on a step and a step of at most one, timeUpdate keeps curIndex <= endStep <= numSteps - 1. */
  lemma TimeUpdateBounds(cur: nat, next: nat, windowSteps: nat, numSteps: nat)
    requires numSteps >= 1 && cur <= numSteps - 1 && next <= 1
    ensures NextIndex(cur, next, numSteps) <= numSteps - 1
    ensures NextIndex(cur, next, numSteps) <= WindowEnd(NextIndex(cur, next, numSteps), windowSteps, numSteps) <= numSteps - 1
    ensures windowSteps >= 1 && numSteps >= 2 ==> WindowEnd(NextIndex(cur, next, numSteps), windowSteps, numSteps) >= 1
  {
  }

  /** timeUpdate(0) is idempotent, but is not the identity on the last step. */
  lemma PausedUpdateIdempotent(cur: nat, windowSteps: nat, numSteps: nat)
    ensures NextIndex(NextIndex(cur, 0, numSteps), 0, numSteps) == NextIndex(cur, 0, numSteps)
    ensures numSteps >= 1 ==> NextIndex(numSteps - 1, 0, numSteps) == 0
    ensures cur < numSteps - 1 ==> NextIndex(cur, 0, numSteps) == cur
  {
  }

  /** curIndex after k calls of timeUpdate(1). */
  function AdvanceN(cur: nat, k: nat, numSteps: nat): nat
  {
    if k == 0 then cur else NextIndex(AdvanceN(cur, k - 1, numSteps), 1, numSteps)
  }

  /** Playing from step 0, the k-th frame shows step k, for every step. */
  lemma {:induction false} PlaybackVisitsEveryStep(k: nat, numSteps: nat)
    requires k < numSteps
    ensures AdvanceN(0, k, numSteps) == k
  {
    if k > 0 {
      PlaybackVisitsEveryStep(k - 1, numSteps);
    }
  }

  /** Playing from step 0, numSteps frames bring curIndex back to 0: playback loops. */
  lemma PlaybackLoops(numSteps: nat)
    requires numSteps >= 1
    ensures AdvanceN(0, numSteps, numSteps) == 0
  {
    PlaybackVisitsEveryStep(numSteps - 1, numSteps);
  }

  /**
   * Timestamps [0, 1, 2, 3, 4] with step and window 1 (the front end passes the
   * window size for both): numSteps is 4 and the second loop writes only
   * endOffsets[0..2), yet after two frames of playback render reads
   * endOffsets[endStep - 1] = endOffsets[2].
   */
  lemma EndOffsetReadBeyondScan()
    ensures Sorted([0, 1, 2, 3, 4]) && NumSteps([0, 1, 2, 3, 4], 1) == 4
    ensures EndBoundaries([0, 1, 2, 3, 4], 1, 1) == [3, 4]
    ensures AdvanceN(0, 2, 4) == 2 && WindowEnd(2, 1, 4) - 1 == 2
  {
    var t := [0, 1, 2, 3, 4];
    assert Crossings(t, 5, 2, 1, 2) == [];
    assert Crossings(t, 4, 1, 1, 2) == [4];
    assert Crossings(t, 3, 0, 1, 2) == [3, 4];
    assert Crossings(t, 2, 0, 1, 2) == [3, 4];
    assert Crossings(t, 1, 0, 1, 2) == [3, 4];
  }

  /**
   * With a single step every timeUpdate leaves endStep at 0, so render reads
   * endOffsets[endStep - 1] = endOffsets[-1], before the table. Timestamps
   * [0, 1] with step 1 give that single step, and the first frame, paused,
   * calls timeUpdate(0).
   */
  lemma SingleStepReadsBeforeTable(cur: nat, next: nat, windowSteps: nat)
    ensures Sorted([0, 1]) && NumSteps([0, 1], 1) == 1
    ensures NextIndex(cur, next, 1) == 0
    ensures WindowEnd(NextIndex(cur, next, 1), windowSteps, 1) - 1 == -1
  {
  }

  /** The record run render hands to glDrawArrays: the first record and the count. */
  datatype DrawRun = DrawRun(first: nat, count: int)

  /**
   * The animation state of one GLModelAnimated: the timestamps, the two offset
   * tables and the playback cursor the UI and the frame gate update.
   */
  class GLModelAnimated {
    const timeData: seq<int>
    const stepSize: nat
    const windowSize: nat
    var numSteps: nat
    var startOffsets: array<nat>
    var endOffsets: array<nat>
    /** How many entries of each table the source's scans write; the rest it leaves uninitialised. */
    var startWritten: nat
    var endWritten: nat
    var curIndex: nat
    var endStep: int
    var windowSteps: nat
    var fps: real
    var paused: bool
    /** Wall-clock time of the last advance. */
    var time: real

    ghost predicate Valid()
      reads this, startOffsets, endOffsets
    {
      && |timeData| > 0 && Sorted(timeData) && stepSize > 0
      && numSteps == NumSteps(timeData, stepSize)
      && startOffsets[..] == OffsetTable(StartBoundaries(timeData, stepSize), numSteps, |timeData|)
      && endOffsets[..] == OffsetTable(EndBoundaries(timeData, stepSize, windowSize), numSteps, |timeData|)
      && startWritten == Min(|StartBoundaries(timeData, stepSize)|, numSteps)
      && endWritten == Min(|EndBoundaries(timeData, stepSize, windowSize)|, numSteps)
    }

    /** The constructor: copies the timestamps, builds the tables, and starts paused on step 0. */
    constructor (timeData: seq<int>, stepSize: nat, windowSize: nat, now: real)
      requires |timeData| > 0 && Sorted(timeData) && stepSize > 0
      ensures Valid()
      ensures this.timeData == timeData && this.stepSize == stepSize && this.windowSize == windowSize
      ensures curIndex == 0 && endStep == 1 && windowSteps == 1
      ensures paused && fps == 30.0 && time == now
    {
      this.timeData := timeData;
      this.windowSize := windowSize;
      time := now;
      curIndex := 0;
      this.stepSize := stepSize;
      var steps, starts, ends, startCount, endCount := CreateTimeSteps(timeData, stepSize, windowSize);
      numSteps, startOffsets, endOffsets, startWritten, endWritten := steps, starts, ends, startCount, endCount;
      fps := 30.0;
      endStep := 1;
      windowSteps := 1;
      paused := true;
    }

    /**
     * createTimeSteps, corrected: the same two scans, each write guarded by the
     * allocation size, and unreached entries holding numVertices. The tables
     * agree with what the source writes on every entry the source writes.
     */
    static method CreateTimeSteps(timeData: seq<int>, stepSize: nat, windowSize: nat)
      returns (numSteps: nat, startOffsets: array<nat>, endOffsets: array<nat>, startWritten: nat, endWritten: nat)
      requires |timeData| > 0 && Sorted(timeData) && stepSize > 0
      ensures numSteps == NumSteps(timeData, stepSize)
      ensures startOffsets[..] == OffsetTable(StartBoundaries(timeData, stepSize), numSteps, |timeData|)
      ensures endOffsets[..] == OffsetTable(EndBoundaries(timeData, stepSize, windowSize), numSteps, |timeData|)
      ensures startWritten == Min(|StartBoundaries(timeData, stepSize)|, numSteps)
      ensures endWritten == Min(|EndBoundaries(timeData, stepSize, windowSize)|, numSteps)
    {
      var n := |timeData|;
      var minTime := timeData[0];
      var maxTime := timeData[n - 1];
      assert minTime <= maxTime;
      numSteps := (maxTime - minTime) / stepSize;
      startOffsets, startWritten := ScanStartOffsets(timeData, stepSize, numSteps);
      endOffsets, endWritten := ScanEndOffsets(timeData, stepSize, windowSize, numSteps);
    }

    /**
     * The first loop of createTimeSteps: startOffsets[0] is 0, and each record
     * later than the current boundary plus one step is the next entry.
     */
    static method ScanStartOffsets(timeData: seq<int>, stepSize: nat, numSteps: nat)
      returns (startOffsets: array<nat>, written: nat)
      requires |timeData| > 0
      ensures startOffsets[..] == OffsetTable(StartBoundaries(timeData, stepSize), numSteps, |timeData|)
      ensures written == Min(|StartBoundaries(timeData, stepSize)|, numSteps)
    {
      var n := |timeData|;
      var minTime := timeData[0];
      startOffsets := new nat[numSteps](_ => n);
      var curTime := minTime;
      if 0 < numSteps {
        startOffsets[0] := 0;
      }
      var stepIdx := 1;
      ghost var found: seq<nat> := [];
      for i := 0 to n
        invariant Crossings(timeData, 0, minTime, stepSize, stepSize) == found + Crossings(timeData, i, curTime, stepSize, stepSize)
        invariant stepIdx == 1 + |found|
        invariant startOffsets[..] == OffsetTable([0] + found, numSteps, n)
      {
        var recordTime := timeData[i];
        ScanStep(timeData, i, curTime, stepSize, stepSize, found, Crossings(timeData, 0, minTime, stepSize, stepSize));
        if curTime + stepSize < recordTime {
          OffsetTableSnoc([0] + found, i, numSteps, n);
          if stepIdx < numSteps {
            startOffsets[stepIdx] := i;
          }
          curTime := curTime + stepSize;
          stepIdx := stepIdx + 1;
          assert [0] + found + [i] == [0] + (found + [i]);
          found := found + [i];
        }
      }
      written := Min(stepIdx, numSteps);
    }

    /**
     * The second loop of createTimeSteps: each record later than the current
     * boundary plus one step plus the window is the next entry.
     */
    static method ScanEndOffsets(timeData: seq<int>, stepSize: nat, windowSize: nat, numSteps: nat)
      returns (endOffsets: array<nat>, written: nat)
      requires |timeData| > 0
      ensures endOffsets[..] == OffsetTable(EndBoundaries(timeData, stepSize, windowSize), numSteps, |timeData|)
      ensures written == Min(|EndBoundaries(timeData, stepSize, windowSize)|, numSteps)
    {
      var n := |timeData|;
      var minTime := timeData[0];
      endOffsets := new nat[numSteps](_ => n);
      var stepIdx := 0;
      var curTime := minTime;
      ghost var found: seq<nat> := [];
      for i := 0 to n
        invariant Crossings(timeData, 0, minTime, stepSize, stepSize + windowSize) == found + Crossings(timeData, i, curTime, stepSize, stepSize + windowSize)
        invariant stepIdx == |found|
        invariant endOffsets[..] == OffsetTable(found, numSteps, n)
      {
        var recordTime := timeData[i];
        ScanStep(timeData, i, curTime, stepSize, stepSize + windowSize, found, Crossings(timeData, 0, minTime, stepSize, stepSize + windowSize));
        if curTime + stepSize + windowSize < recordTime {
          OffsetTableSnoc(found, i, numSteps, n);
          if stepIdx < numSteps {
            endOffsets[stepIdx] := i;
          }
          curTime := curTime + stepSize;
          stepIdx := stepIdx + 1;
          found := found + [i];
        }
      }
      written := Min(stepIdx, numSteps);
    }

    /** timeUpdate(next): wrap or advance curIndex, then recompute endStep. */
    method TimeUpdate(next: nat)
      requires Valid()
      modifies this`curIndex, this`endStep
      ensures Valid()
      ensures curIndex == NextIndex(old(curIndex), next, numSteps)
      ensures endStep == WindowEnd(curIndex, windowSteps, numSteps)
    {
      if curIndex >= numSteps - 1 {
        curIndex := 0;
      } else {
        curIndex := curIndex + next;
      }
      var last := curIndex + windowSteps;
      if last > numSteps - 1 {
        last := numSteps - 1;
      }
      endStep := last;
    }

    /**
     * The record run drawn this frame: from startOffsets[curIndex] up to
     * endOffsets[endStep - 1]. Defined when both reads are inside the tables;
     * every entry read is at most numVertices, so the run ends inside the records
     * (a negative count is the case of an end entry below the start entry).
     */
    function DrawnRange(): (r: Option<DrawRun>)
      reads this, startOffsets, endOffsets
      requires Valid()
      ensures r.Some? <==> curIndex < numSteps && 1 <= endStep <= numSteps
      ensures r.Some? ==> r.value.first == startOffsets[curIndex] <= |timeData|
      ensures r.Some? ==> r.value.first + r.value.count == endOffsets[endStep - 1] <= |timeData|
    {
      TablesOrdered(timeData, stepSize, windowSize, numSteps);
      if curIndex < numSteps && 1 <= endStep <= numSteps then
        Some(DrawRun(startOffsets[curIndex], endOffsets[endStep - 1] as int - startOffsets[curIndex]))
      else
        None
    }

    /**
     * One frame of render: the Play/Pause button toggles paused; then, playing
     * and due (the frame interval 1/fps has elapsed), advance one step and reset
     * the clock; paused, recompute the window with timeUpdate(0); playing and not
     * due, change nothing. Returns the run drawn afterwards.
     */
    method RenderFrame(playPausePressed: bool, due: bool, now: real) returns (run: Option<DrawRun>)
      requires Valid()
      modifies this`paused, this`curIndex, this`endStep, this`time
      ensures Valid()
      ensures paused == (old(paused) != playPausePressed)
      ensures !paused && due ==> curIndex == NextIndex(old(curIndex), 1, numSteps) && time == now
      ensures paused ==> curIndex == NextIndex(old(curIndex), 0, numSteps) && time == old(time)
      ensures paused || due ==> endStep == WindowEnd(curIndex, windowSteps, numSteps)
      ensures !paused && !due ==> curIndex == old(curIndex) && endStep == old(endStep) && time == old(time)
      ensures run == DrawnRange()
    {
      if playPausePressed {
        paused := !paused;
      }
      if due && !paused {
        TimeUpdate(1);
        time := now;
      } else {
        if paused {
          TimeUpdate(0);
        }
      }
      run := DrawnRange();
    }
  }
}

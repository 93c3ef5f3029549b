/** How `RandomxDataset::new` splits the dataset's item indices among its
    workers: the plan as a closed form, the planning loop of the source proved
    equal to it, and the proof that the plan tiles `[0, count)` exactly once. */
module Partition {

  /** The item indices `[start, start + len)` handed to one
      `randomx_init_dataset` call. */
  datatype Range = Range(start: nat, len: nat) {
    function End(): nat { start + len }
    predicate Contains(i: int) { start <= i < start + len }
  }

  /** Range `i` of `n > 1`: every range has `count / n` items, the last one
      also takes the remainder `count % n`, and range `i` begins after `i`
      ranges of the common length. */
  function RangeAt(count: nat, n: nat, i: nat): Range
    requires 1 < n && i < n
  {
    Range(i * (count / n), count / n + if i == n - 1 then count % n else 0)
  }

  /** The init calls the constructor makes: a single call over every item when
      there is at most one CPU, otherwise one range per CPU. */
  function Ranges(count: nat, n: nat): (rs: seq<Range>)
    ensures |rs| == if n <= 1 then 1 else n
    ensures forall j :: 0 <= j < |rs| ==> rs[j].End() <= count
  {
    if n <= 1 then [Range(0, count)]
    else
      var rs := seq(n, i requires 0 <= i < n => RangeAt(count, n, i));
      assert forall j :: 0 <= j < n ==> rs[j].End() <= count by {
        forall j | 0 <= j < n ensures rs[j].End() <= count {
          RangeAtEnd(count, n, j);
        }
      }
      rs
  }

  lemma MulMonotone(a: nat, b: nat, q: nat)
    requires a <= b
    ensures a * q <= b * q
  {
    assert b * q == a * q + (b - a) * q;
  }

  /** Where range `i` ends: after `i + 1` common-length ranges, or at `count`
      for the last one. */
  lemma RangeAtEnd(count: nat, n: nat, i: nat)
    requires 1 < n && i < n
    ensures RangeAt(count, n, i).End() == if i == n - 1 then count else (i + 1) * (count / n)
    ensures RangeAt(count, n, i).End() <= count
  {
    var q := count / n;
    assert (i + 1) * q == i * q + q;
    assert n * q + count % n == count;
    MulMonotone(i + 1, n, q);
  }

  /** The running `start` of the planning loop: each range begins where the
      previous one ends, and the last one ends at `count`. */
  lemma NextStart(count: nat, n: nat, i: nat)
    requires 1 < n && i < n
    ensures i + 1 < n ==> RangeAt(count, n, i).End() == RangeAt(count, n, i + 1).start
    ensures i + 1 == n ==> RangeAt(count, n, i).End() == count
  {
    RangeAtEnd(count, n, i);
  }

  /** Every range after the first starts where its predecessor ends. */
  ghost predicate Contiguous(rs: seq<Range>) {
    forall j :: 0 < j < |rs| ==> rs[j].start == rs[j - 1].End()
  }

  /** `rs` is a non-empty run of contiguous ranges from 0 to `count`. */
  ghost predicate Tiles(rs: seq<Range>, count: nat) {
    && |rs| > 0
    && rs[0].start == 0
    && Contiguous(rs)
    && rs[|rs| - 1].End() == count
  }

  /** The plan is a tiling of `[0, count)`, whatever the CPU count, including
      `count < n`, where the leading ranges are empty. */
  lemma RangesTile(count: nat, n: nat)
    ensures Tiles(Ranges(count, n), count)
  {
    if 1 < n {
      var rs := Ranges(count, n);
      forall j | 0 < j < n ensures rs[j].start == rs[j - 1].End() {
        RangeAtEnd(count, n, j - 1);
      }
      RangeAtEnd(count, n, n - 1);
    }
  }

  /** Contiguous ranges come in order: a later range starts no earlier than an
      earlier one ends. */
  lemma {:induction false} StartsAfter(rs: seq<Range>, j: nat, k: nat)
    requires Contiguous(rs)
    requires j < k < |rs|
    ensures rs[j].End() <= rs[k].start
    decreases k - j
  {
    if j + 1 < k {
      StartsAfter(rs, j, k - 1);
    }
  }

  /** Every index below the end of range `m` lies in one of the ranges up to `m`. */
  lemma {:induction false} CoveredBelow(rs: seq<Range>, m: nat, i: nat)
    requires |rs| > 0 && rs[0].start == 0 && Contiguous(rs)
    requires m < |rs| && i < rs[m].End()
    ensures exists j :: 0 <= j <= m && rs[j].Contains(i)
  {
    if i < rs[m].start {
      CoveredBelow(rs, m - 1, i);
    } else {
      assert rs[m].Contains(i);
    }
  }

  /** Some range of `rs` holds index `i`. */
  ghost predicate Covered(rs: seq<Range>, i: int) {
    exists j :: 0 <= j < |rs| && rs[j].Contains(i)
  }

  /** A tiling covers every index of `[0, count)` exactly once and nothing
      outside it. */
  lemma TilesCoverExactlyOnce(rs: seq<Range>, count: nat)
    requires Tiles(rs, count)
    ensures forall i :: 0 <= i < count ==> Covered(rs, i)
    ensures forall j, k, i :: 0 <= j < k < |rs| && rs[j].Contains(i) ==> !rs[k].Contains(i)
    ensures forall j :: 0 <= j < |rs| ==> rs[j].End() <= count
  {
    var last := |rs| - 1;
    forall i | 0 <= i < count ensures Covered(rs, i) {
      CoveredBelow(rs, last, i);
    }
    forall j, k | 0 <= j < k < |rs| ensures rs[j].End() <= rs[k].start {
      StartsAfter(rs, j, k);
    }
    forall j | 0 <= j < last ensures rs[j].End() <= count {
      StartsAfter(rs, j, last);
    }
  }

  /** A sequence that agrees with `RangeAt` everywhere is the plan. */
  lemma PlannedIsRanges(count: nat, n: nat, ranges: seq<Range>)
    requires 1 < n && |ranges| == n
    requires forall k :: 0 <= k < n ==> ranges[k] == RangeAt(count, n, k)
    ensures Tiles(ranges, count)
    ensures ranges == Ranges(count, n)
  {
    RangesTile(count, n);
    assert ranges == Ranges(count, n);
  }

  /** The planning loop of `RandomxDataset::new` for more than one CPU: a
      running `start` and a per-iteration size that the last iteration
      enlarges by the remainder. */
  method PlanRanges(count: nat, numCpus: nat) returns (ranges: seq<Range>)
    requires 1 < numCpus
    ensures |ranges| == numCpus
    ensures forall i :: 0 <= i < numCpus - 1 ==> ranges[i].len == count / numCpus
    ensures ranges[numCpus - 1].len == count / numCpus + count % numCpus
    ensures Tiles(ranges, count)
    ensures ranges == Ranges(count, numCpus)
  {
    var size := count / numCpus;
    var last := count % numCpus;
    var start := 0;
    ranges := [];
    for i := 0 to numCpus
      invariant |ranges| == i
      invariant forall k :: 0 <= k < i ==> ranges[k] == RangeAt(count, numCpus, k)
      invariant start == if i < numCpus then RangeAt(count, numCpus, i).start else count
    {
      var tempSize := size;
      if i == numCpus - 1 {
        tempSize := tempSize + last;
      }
      ranges := ranges + [Range(start, tempSize)];
      NextStart(count, numCpus, i);
      start := start + tempSize;
    }
    PlannedIsRanges(count, numCpus, ranges);
  }
}

/** What the dataset workers do to the item memory: each `randomx_init_dataset`
    call overwrites the items of its range with values that depend on the item
    index alone, so the calls commute and any schedule that runs every planned
    range once leaves the same memory as one call over all items. */
module Fill {
  import opened Partition

  /** The memory `m` after one init call over `r`, where `f(i)` is the item the
      library derives for index `i`. */
  function Write<T>(m: seq<T>, f: nat -> T, r: Range): (w: seq<T>)
    requires r.End() <= |m|
    ensures |w| == |m|
    ensures forall i :: 0 <= i < |m| ==> w[i] == if r.Contains(i) then f(i) else m[i]
  {
    m[..r.start] + seq(r.len, k requires 0 <= k < r.len => f(r.start + k)) + m[r.End()..]
  }

  /** The first `n` items `f(0), ..., f(n - 1)`. */
  function Filled<T>(n: nat, f: nat -> T): (s: seq<T>)
    ensures |s| == n
    ensures forall i :: 0 <= i < n ==> s[i] == f(i)
  {
    seq(n, i requires 0 <= i < n => f(i))
  }

  /** Every range ends inside a memory of `n` items. */
  ghost predicate Fits(rs: seq<Range>, n: nat) {
    forall j :: 0 <= j < |rs| ==> rs[j].End() <= n
  }

  /** Every entry of the schedule names one of `n` ranges. */
  ghost predicate Indexes(ord: seq<nat>, n: nat) {
    forall k :: 0 <= k < |ord| ==> ord[k] < n
  }

  /** The workers of schedule `ord` run one after another: `ord[k]` is the
      range the `k`-th worker to run writes. */
  function ApplyAll<T>(m: seq<T>, f: nat -> T, rs: seq<Range>, ord: seq<nat>): (w: seq<T>)
    requires Fits(rs, |m|) && Indexes(ord, |rs|)
    ensures |w| == |m|
    decreases |ord|
  {
    if ord == [] then m
    else Write(ApplyAll(m, f, rs, ord[..|ord| - 1]), f, rs[ord[|ord| - 1]])
  }

  /** Some worker of the schedule writes index `i`. */
  ghost predicate Scheduled(rs: seq<Range>, ord: seq<nat>, i: int) {
    exists k :: 0 <= k < |ord| && ord[k] < |rs| && rs[ord[k]].Contains(i)
  }

  /** After any schedule, an index holds its derived item exactly when some
      worker wrote it, and keeps its old value otherwise. */
  lemma {:induction false} ApplyAllAt<T>(m: seq<T>, f: nat -> T, rs: seq<Range>, ord: seq<nat>, i: int)
    requires Fits(rs, |m|) && Indexes(ord, |rs|)
    requires 0 <= i < |m|
    ensures ApplyAll(m, f, rs, ord)[i] == if Scheduled(rs, ord, i) then f(i) else m[i]
    decreases |ord|
  {
    if ord != [] {
      var n := |ord| - 1;
      var p := ord[..n];
      ApplyAllAt(m, f, rs, p, i);
      if Scheduled(rs, p, i) {
        var k :| 0 <= k < |p| && p[k] < |rs| && rs[p[k]].Contains(i);
        assert ord[k] == p[k];
      }
      if rs[ord[n]].Contains(i) {
        assert Scheduled(rs, ord, i);
      }
      if Scheduled(rs, ord, i) && !rs[ord[n]].Contains(i) {
        var k :| 0 <= k < |ord| && ord[k] < |rs| && rs[ord[k]].Contains(i);
        assert k < n && p[k] == ord[k];
        assert Scheduled(rs, p, i);
      }
    }
  }

  /** `ord` lists each of `0, ..., n - 1` exactly once: an order in which the
      `n` spawned workers may run. */
  ghost predicate IsPermutation(ord: seq<nat>, n: nat) {
    Indexes(ord, n) && multiset(ord) == multiset(seq(n, i => i))
  }

  lemma PermutationIndexes(ord: seq<nat>, n: nat)
    requires IsPermutation(ord, n)
    ensures |ord| == n
    ensures Indexes(ord, n)
    ensures forall j :: 0 <= j < n ==> j in ord
  {
    var iota := seq(n, i => i);
    assert |multiset(ord)| == |ord| && |multiset(iota)| == n;
    forall k | 0 <= k < |ord| ensures ord[k] < n {
      assert ord[k] in multiset(iota);
    }
    forall j | 0 <= j < n ensures j in ord {
      assert iota[j] == j;
      assert j in multiset(ord);
    }
  }

  /** One call over the whole memory writes every item. */
  lemma WriteAllIsFilled<T>(m: seq<T>, f: nat -> T)
    ensures Write(m, f, Range(0, |m|)) == Filled(|m|, f)
  {
    var w := Write(m, f, Range(0, |m|));
    assert forall i :: 0 <= i < |m| ==> w[i] == f(i);
  }

  /** Running the workers of a tiling in any order fills every item. */
  lemma {:induction false} AnyScheduleWritesAll<T>(m: seq<T>, f: nat -> T, rs: seq<Range>, ord: seq<nat>)
    requires Tiles(rs, |m|)
    requires IsPermutation(ord, |rs|)
    ensures Fits(rs, |m|) && Indexes(ord, |rs|)
    ensures ApplyAll(m, f, rs, ord) == Filled(|m|, f)
  {
    TilesCoverExactlyOnce(rs, |m|);
    PermutationIndexes(ord, |rs|);
    var w := ApplyAll(m, f, rs, ord);
    forall i | 0 <= i < |m| ensures w[i] == f(i) {
      ApplyAllAt(m, f, rs, ord, i);
      assert Covered(rs, i);
      var j :| 0 <= j < |rs| && rs[j].Contains(i);
      assert j in ord;
      var k :| 0 <= k < |ord| && ord[k] == j;
      assert Scheduled(rs, ord, i);
    }
    assert w == Filled(|m|, f);
  }

  /** The constructor's plan, run in any worker order, gives the memory of
      the single-call branch `init(0, count)`. */
  lemma PartitionedFillMatchesSingleCall<T>(m: seq<T>, f: nat -> T, n: nat, ord: seq<nat>)
    requires IsPermutation(ord, |Ranges(|m|, n)|)
    ensures Indexes(ord, |Ranges(|m|, n)|)
    ensures ApplyAll(m, f, Ranges(|m|, n), ord) == Write(m, f, Range(0, |m|))
  {
    RangesTile(|m|, n);
    AnyScheduleWritesAll(m, f, Ranges(|m|, n), ord);
    WriteAllIsFilled(m, f);
  }

  /** Two worker orders of the same plan leave the same memory. */
  lemma FillOrderIndependent<T>(m: seq<T>, f: nat -> T, n: nat, ord1: seq<nat>, ord2: seq<nat>)
    requires IsPermutation(ord1, |Ranges(|m|, n)|)
    requires IsPermutation(ord2, |Ranges(|m|, n)|)
    ensures Indexes(ord1, |Ranges(|m|, n)|) && Indexes(ord2, |Ranges(|m|, n)|)
    ensures ApplyAll(m, f, Ranges(|m|, n), ord1) == ApplyAll(m, f, Ranges(|m|, n), ord2)
  {
    PartitionedFillMatchesSingleCall(m, f, n, ord1);
    PartitionedFillMatchesSingleCall(m, f, n, ord2);
  }
}

/** The wrapper's owners of native caches and datasets: construction with its
    error order, the partitioned dataset fill, and release on drop. */
module Dataset {
  import opened Errors
  import opened Partition
  import opened Fill
  import opened Native
  import opened Maps

  /** `RandomxCache`: owns a cache handle. The ghost key names the contents
      the library derived into the cache; the wrapper does not keep it. */
  datatype RandomxCache = RandomxCache(handle: Handle, ghost key: Key)

  /** `RandomxDataset`: owns a dataset handle. The item region behind it is
      the library's `datasets[handle]`. */
  datatype RandomxDataset = RandomxDataset(handle: Handle)

  /** What the host decides during one `RandomxDataset::new`: whether each
      allocation succeeds, the CPU count, the order in which the spawned
      workers run, whether each join succeeds (in spawn order), and whether
      the shared dataset can be taken back from its reference count. */
  datatype Environment = Environment(
    cacheGranted: bool,
    datasetGranted: bool,
    numCpus: nat,
    order: seq<nat>,
    joined: seq<bool>,
    unwrapped: bool)

  /** With more than one CPU, every spawned worker runs once and is joined once. */
  ghost predicate WellFormed(env: Environment) {
    env.numCpus > 1 ==> IsPermutation(env.order, env.numCpus) && |env.joined| == env.numCpus
  }

  /** The order in which the planned ranges are written: the single call, or
      the workers in the order they run. */
  function Schedule(env: Environment): seq<nat> {
    if env.numCpus <= 1 then [0] else env.order
  }

  predicate AllJoined(joined: seq<bool>) {
    forall j :: 0 <= j < |joined| ==> joined[j]
  }

  /** The `randomx_init_dataset` calls of a schedule, in the order they run. */
  function InitCalls(dataset: Handle, cache: Handle, rs: seq<Range>, ord: seq<nat>): (calls: seq<Call>)
    requires Indexes(ord, |rs|)
    ensures |calls| == |ord|
    ensures forall k :: 0 <= k < |ord| ==>
      calls[k] == LogInitDataset(dataset, cache, rs[ord[k]].start, rs[ord[k]].len)
  {
    if ord == [] then []
    else
      var last := rs[ord[|ord| - 1]];
      InitCalls(dataset, cache, rs, ord[..|ord| - 1]) + [LogInitDataset(dataset, cache, last.start, last.len)]
  }

  /** With at most one CPU the constructor makes exactly one init call, over
      `[0, count)`. */
  lemma SingleCpuMakesOneCall(dataset: Handle, cache: Handle, count: nat, env: Environment)
    requires env.numCpus <= 1
    ensures InitCalls(dataset, cache, Ranges(count, env.numCpus), Schedule(env)) == [LogInitDataset(dataset, cache, 0, count)]
  {
  }

  /** `RandomxCache::new`: allocate, then initialise the cache with the key
      once; a null allocation is `CacheAllocError` and nothing else happens. */
  method NewCache(lib: Library, flags: Flags, key: Key, granted: bool) returns (r: Result<RandomxCache>)
    requires lib.Valid()
    modifies lib`log, lib`state, lib`next
    ensures lib.Valid() && Successor(old(lib.state), lib.state)
    ensures !granted ==>
      && r == Err(CacheAllocError)
      && lib.log == old(lib.log) + [LogAllocCache(flags, None)]
      && lib.state == old(lib.state) && lib.next == old(lib.next)
    ensures granted ==>
      var c := old(lib.next);
      && r == Ok(RandomxCache(c, key))
      && lib.log == old(lib.log) + [LogAllocCache(flags, Some(c)), LogInitCache(c, key)]
      && lib.state == old(lib.state)[c := CacheReady(key)] && lib.next == c + 1
  {
    var h := lib.AllocCache(flags, granted);
    if h.None? {
      return Err(CacheAllocError);
    }
    lib.InitCache(h.value, key);
    r := Ok(RandomxCache(h.value, key));
  }

  /** `Drop for RandomxCache`: one release of the owned handle. */
  method DropCache(lib: Library, cache: RandomxCache)
    requires lib.Valid()
    requires cache.handle in lib.state && lib.state[cache.handle] == CacheReady(cache.key)
    modifies lib`log, lib`state
    ensures lib.Valid() && Successor(old(lib.state), lib.state)
    ensures lib.state == old(lib.state)[cache.handle := Released]
    ensures lib.log == old(lib.log) + [LogReleaseCache(cache.handle)]
  {
    lib.ReleaseCache(cache.handle);
  }

  /** `Drop for RandomxDataset`: one release of the owned handle. */
  method DropDataset(lib: Library, dataset: RandomxDataset)
    requires lib.Valid()
    requires dataset.handle in lib.state && lib.state[dataset.handle] == DatasetLive
    modifies lib`log, lib`state
    ensures lib.Valid() && Successor(old(lib.state), lib.state)
    ensures lib.state == old(lib.state)[dataset.handle := Released]
    ensures lib.log == old(lib.log) + [LogReleaseDataset(dataset.handle)]
  {
    lib.ReleaseDataset(dataset.handle);
  }

  /** The join loop: every handle is joined in spawn order, and the first
      failed join is `ThreadError`. */
  method JoinAll(joined: seq<bool>) returns (r: Result<()>)
    ensures r.Ok? <==> AllJoined(joined)
    ensures r.Err? ==> r.error == ThreadError
  {
    var j := 0;
    while j < |joined|
      invariant 0 <= j <= |joined|
      invariant forall i :: 0 <= i < j ==> joined[i]
    {
      if !joined[j] {
        return Err(ThreadError);
      }
      j := j + 1;
    }
    r := Ok(());
  }

  /** The spawned workers of `RandomxDataset::new`, run one after another in
      the order `ord`: worker `k` fills range `ord[k]`. */
  method RunWorkers(lib: Library, dataset: RandomxDataset, cache: RandomxCache, ranges: seq<Range>, ord: seq<nat>)
    requires dataset.handle in lib.state && lib.state[dataset.handle] == DatasetLive
    requires dataset.handle in lib.datasets
    requires Fits(ranges, lib.datasets[dataset.handle].Length) && Indexes(ord, |ranges|)
    requires cache.handle in lib.state && lib.state[cache.handle] == CacheReady(cache.key)
    modifies lib`log, lib.datasets[dataset.handle]
    ensures lib.datasets[dataset.handle][..]
      == ApplyAll(old(lib.datasets[dataset.handle][..]), lib.ItemsOf(cache.key), ranges, ord)
    ensures lib.log == old(lib.log) + InitCalls(dataset.handle, cache.handle, ranges, ord)
  {
    var memory := lib.datasets[dataset.handle];
    ghost var m0 := memory[..];
    ghost var f := lib.ItemsOf(cache.key);
    for k := 0 to |ord|
      invariant memory[..] == ApplyAll(m0, f, ranges, ord[..k])
      invariant lib.log == old(lib.log) + InitCalls(dataset.handle, cache.handle, ranges, ord[..k])
    {
      var rg := ranges[ord[k]];
      lib.InitDataset(dataset.handle, cache.handle, rg.start, rg.len);
      assert ord[..k + 1][..k] == ord[..k];
    }
    assert ord[..|ord|] == ord;
  }

  /** The fill step of `RandomxDataset::new`: one `randomx_init_dataset`
      call over every item when there is at most one CPU, otherwise one
      worker per planned range, the workers running one after another in the
      order the host chose. Either way every item ends up derived from the
      cache's key. */
  method FillDataset(lib: Library, dataset: RandomxDataset, cache: RandomxCache, env: Environment)
    requires WellFormed(env)
    requires dataset.handle in lib.state && lib.state[dataset.handle] == DatasetLive
    requires dataset.handle in lib.datasets && lib.datasets[dataset.handle].Length == lib.itemCount
    requires cache.handle in lib.state && lib.state[cache.handle] == CacheReady(cache.key)
    modifies lib`log, lib.datasets[dataset.handle]
    ensures lib.datasets[dataset.handle][..] == lib.Items(cache.key)
    ensures lib.log == old(lib.log) + InitCalls(dataset.handle, cache.handle, Ranges(lib.itemCount, env.numCpus), Schedule(env))
  {
    var count := lib.itemCount;
    ghost var m0 := lib.datasets[dataset.handle][..];
    ghost var f := lib.ItemsOf(cache.key);
    WriteAllIsFilled(m0, f);
    if env.numCpus <= 1 {
      lib.InitDataset(dataset.handle, cache.handle, 0, count);
    } else {
      var ranges := PlanRanges(count, env.numCpus);
      PermutationIndexes(env.order, env.numCpus);
      RunWorkers(lib, dataset, cache, ranges, env.order);
      PartitionedFillMatchesSingleCall(m0, f, env.numCpus, env.order);
    }
  }

  /** The end of `RandomxDataset::new` once the workers are spawned: join
      them (with more than one CPU), take the dataset back from the shared
      reference, and release the intermediate cache. A dataset that is not
      returned is released as well. */
  method JoinAndTakeBack(lib: Library, cache: RandomxCache, dataset: RandomxDataset, env: Environment)
    returns (r: Result<RandomxDataset>)
    requires lib.Valid()
    requires cache.handle in lib.state && lib.state[cache.handle] == CacheReady(cache.key)
    requires dataset.handle in lib.state && lib.state[dataset.handle] == DatasetLive
    requires cache.handle != dataset.handle
    modifies lib`log, lib`state
    ensures lib.Valid() && Successor(old(lib.state), lib.state) && lib.state.Keys == old(lib.state.Keys)
    ensures r.Ok? <==> env.numCpus <= 1 || (AllJoined(env.joined) && env.unwrapped)
    ensures r.Err? ==> r.error == if AllJoined(env.joined) then DatasetAllocError else ThreadError
    ensures r.Ok? ==>
      && r.value == dataset
      && lib.log == old(lib.log) + [LogReleaseCache(cache.handle)]
      && lib.state == old(lib.state)[cache.handle := Released]
    ensures r.Err? ==>
      && lib.log == old(lib.log) + [LogReleaseDataset(dataset.handle), LogReleaseCache(cache.handle)]
      && lib.state == old(lib.state)[dataset.handle := Released][cache.handle := Released]
  {
    if 1 < env.numCpus {
      var joins := JoinAll(env.joined);
      if joins.Err? || !env.unwrapped {
        DropDataset(lib, dataset);
        DropCache(lib, cache);
        return Err(if joins.Err? then ThreadError else DatasetAllocError);
      }
    }
    DropCache(lib, cache);
    r := Ok(dataset);
  }

  /** The part of `RandomxDataset::new` after both allocations succeeded:
      the dataset's memory is filled from the cache, the workers are joined,
      the dataset is taken back and the cache is released. */
  method FillAndTakeBack(lib: Library, cache: RandomxCache, d: Handle, env: Environment)
    returns (r: Result<RandomxDataset>)
    requires lib.Valid() && WellFormed(env)
    requires cache.handle in lib.state && lib.state[cache.handle] == CacheReady(cache.key)
    requires d in lib.state && lib.state[d] == DatasetLive
    requires d in lib.datasets && lib.datasets[d].Length == lib.itemCount
    requires cache.handle != d
    modifies lib`log, lib`state, lib.datasets[d]
    ensures lib.Valid() && Successor(old(lib.state), lib.state) && lib.state.Keys == old(lib.state.Keys)
    ensures lib.log == old(lib.log)
      + InitCalls(d, cache.handle, Ranges(lib.itemCount, env.numCpus), Schedule(env))
      + (if r.Ok? then [] else [LogReleaseDataset(d)])
      + [LogReleaseCache(cache.handle)]
    ensures r.Ok? <==> env.numCpus <= 1 || (AllJoined(env.joined) && env.unwrapped)
    ensures r.Err? ==> r.error == if AllJoined(env.joined) then DatasetAllocError else ThreadError
    ensures r.Ok? ==>
      && r.value == RandomxDataset(d)
      && lib.datasets[d][..] == lib.Items(cache.key)
      && lib.state == old(lib.state)[cache.handle := Released]
    ensures r.Err? ==> lib.state == old(lib.state)[d := Released][cache.handle := Released]
  {
    var dataset := RandomxDataset(d);
    FillDataset(lib, dataset, cache, env);
    assert lib.Valid();
    ghost var filled := lib.log;
    r := JoinAndTakeBack(lib, cache, dataset, env);
    assert lib.log == filled + (if r.Ok? then [] else [LogReleaseDataset(d)]) + [LogReleaseCache(cache.handle)];
  }

  /** `RandomxDataset::new`: build a cache from the key (its error first),
      allocate the dataset (null is `DatasetAllocError`), fill it, join the
      workers and take the dataset back from the shared reference. The
      intermediate cache is released on every path that allocated it, and a
      dataset that is not returned is released too. */
  method NewDataset(lib: Library, flags: Flags, key: Key, env: Environment) returns (r: Result<RandomxDataset>)
    requires lib.Valid()
    requires WellFormed(env)
    modifies lib`log, lib`state, lib`next, lib`datasets
    ensures lib.Valid() && Successor(old(lib.state), lib.state)
    ensures !(env.cacheGranted && env.datasetGranted) ==> lib.datasets == old(lib.datasets)
    ensures !env.cacheGranted ==>
      && r == Err(CacheAllocError)
      && lib.log == old(lib.log) + [LogAllocCache(flags, None)]
      && lib.state == old(lib.state)
    ensures env.cacheGranted && !env.datasetGranted ==>
      var c := old(lib.next);
      && r == Err(DatasetAllocError)
      && lib.log == old(lib.log) + [LogAllocCache(flags, Some(c)), LogInitCache(c, key), LogAllocDataset(flags, None), LogReleaseCache(c)]
      && lib.state == old(lib.state)[c := Released]
    ensures env.cacheGranted && env.datasetGranted ==>
      var c, d := old(lib.next), old(lib.next) + 1;
      && lib.next == d + 1
      && d in lib.datasets && fresh(lib.datasets[d])
      && lib.datasets == old(lib.datasets)[d := lib.datasets[d]]
      && lib.log == old(lib.log)
           + [LogAllocCache(flags, Some(c)), LogInitCache(c, key), LogAllocDataset(flags, Some(d))]
           + InitCalls(d, c, Ranges(lib.itemCount, env.numCpus), Schedule(env))
           + (if r.Ok? then [] else [LogReleaseDataset(d)])
           + [LogReleaseCache(c)]
      && (r.Ok? <==> env.numCpus <= 1 || (AllJoined(env.joined) && env.unwrapped))
      && (r.Err? ==> r.error == if AllJoined(env.joined) then DatasetAllocError else ThreadError)
      && (r.Ok? ==>
            && r.value == RandomxDataset(d)
            && lib.datasets[d][..] == lib.Items(key)
            && lib.state == old(lib.state)[c := Released][d := DatasetLive])
      && (r.Err? ==> lib.state == old(lib.state)[c := Released][d := Released])
  {
    var cr := NewCache(lib, flags, key, env.cacheGranted);
    if cr.Err? {
      return Err(cr.error);
    }
    var cache := cr.value;
    var dh := lib.AllocDataset(flags, env.datasetGranted);
    if dh.None? {
      DropCache(lib, cache);
      assert lib.log == old(lib.log) + [LogAllocCache(flags, Some(cache.handle)), LogInitCache(cache.handle, key), LogAllocDataset(flags, None), LogReleaseCache(cache.handle)];
      return Err(DatasetAllocError);
    }
    ghost var c, d := cache.handle, dh.value;
    assert lib.log == old(lib.log) + [LogAllocCache(flags, Some(c)), LogInitCache(c, key), LogAllocDataset(flags, Some(d))];
    ghost var s0, s1 := old(lib.state), lib.state;
    assert s1 == s0[c := CacheReady(key)][d := DatasetLive];
    r := FillAndTakeBack(lib, cache, dh.value, env);
    if r.Ok? {
      UpdateAgain(s0, c, d, CacheReady(key), DatasetLive, Released);
    } else {
      ReleaseBoth(s0, c, d, CacheReady(key), DatasetLive, Released);
    }
  }
}

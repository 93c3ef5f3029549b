/** The wrapper's hashing VM: binding to a cache (light mode) or to a dataset
    (fast mode), the output-buffer guard in front of the native hash, and
    destruction on drop. */
module Vm {
  import opened Errors
  import opened Native
  import opened Dataset

  /** `RandomX`: owns a VM handle. What it hashes over is what the library
      remembers for that handle. */
  datatype RandomX = RandomX(vm: Handle)

  /** `RandomX::new`: create a VM over the cache with a null dataset; a null
      VM is `FailedToInitializeVM`. The flags are passed through unchecked; a
      VM created without `FULLMEM` hashes over the cache. */
  method New(lib: Library, flags: Flags, cache: RandomxCache, granted: bool) returns (r: Result<RandomX>)
    requires lib.Valid()
    requires cache.handle in lib.state && lib.state[cache.handle] == CacheReady(cache.key)
    modifies lib`log, lib`state, lib`next
    ensures lib.Valid() && Successor(old(lib.state), lib.state)
    ensures lib.log == old(lib.log) + [LogCreateVm(flags, Some(cache.handle), None, if granted then Some(old(lib.next)) else None)]
    ensures !granted ==> r == Err(FailedToInitializeVM) && lib.state == old(lib.state)
    ensures granted ==>
      && r == Ok(RandomX(old(lib.next)))
      && lib.state == old(lib.state)[old(lib.next) := VmLive(flags, Some(cache.handle), None)]
    ensures granted && !lib.FullMem(flags) ==>
      && lib.CanHash(r.value.vm)
      && lib.VmMemory(r.value.vm) == CacheMemory(cache.key)
  {
    var vm := lib.CreateVm(flags, Some(cache.handle), None, granted);
    if vm.None? {
      return Err(FailedToInitializeVM);
    }
    r := Ok(RandomX(vm.value));
  }

  /** `RandomX::new_fast`: create a VM over the dataset with a null cache; a
      null VM is `FailedToInitializeVM`. The flags are passed through
      unchecked; a VM created with `FULLMEM` hashes over the dataset's items. */
  method NewFast(lib: Library, flags: Flags, dataset: RandomxDataset, granted: bool) returns (r: Result<RandomX>)
    requires lib.Valid()
    requires dataset.handle in lib.state && lib.state[dataset.handle] == DatasetLive
    requires dataset.handle in lib.datasets
    modifies lib`log, lib`state, lib`next
    ensures lib.Valid() && Successor(old(lib.state), lib.state)
    ensures lib.log == old(lib.log) + [LogCreateVm(flags, None, Some(dataset.handle), if granted then Some(old(lib.next)) else None)]
    ensures !granted ==> r == Err(FailedToInitializeVM) && lib.state == old(lib.state)
    ensures granted ==>
      && r == Ok(RandomX(old(lib.next)))
      && lib.state == old(lib.state)[old(lib.next) := VmLive(flags, None, Some(dataset.handle))]
    ensures granted && lib.FullMem(flags) ==>
      && lib.CanHash(r.value.vm)
      && lib.VmMemory(r.value.vm) == DatasetMemory(lib.datasets[dataset.handle][..])
  {
    var vm := lib.CreateVm(flags, None, Some(dataset.handle), granted);
    if vm.None? {
      return Err(FailedToInitializeVM);
    }
    r := Ok(RandomX(vm.value));
  }

  /** `_calculate_hash`: one native hash call writing the digest into the
      prefix of `out`, which its callers make at least `HASH_SIZE` long. */
  method WriteHash(lib: Library, rx: RandomX, input: seq<Byte>, out: array<Byte>)
    requires lib.CanHash(rx.vm)
    requires HASH_SIZE <= out.Length
    modifies lib`log, out
    ensures out[..HASH_SIZE] == lib.Digest(old(lib.VmMemory(rx.vm)), input)
    ensures out[HASH_SIZE..] == old(out[HASH_SIZE..])
    ensures lib.log == old(lib.log) + [LogCalculateHash(rx.vm, input)]
  {
    lib.CalculateHash(rx.vm, input, out);
  }

  /** `calculate_hash`: a buffer shorter than a digest is refused before any
      native call and left as it was; otherwise exactly one hash call fills
      its first `HASH_SIZE` bytes and leaves the rest alone. */
  method CalculateHash(lib: Library, rx: RandomX, input: seq<Byte>, out: array<Byte>) returns (r: Result<()>)
    requires HASH_SIZE <= out.Length ==> lib.CanHash(rx.vm)
    modifies lib`log, out
    ensures out.Length < HASH_SIZE ==>
      && r == Err(OutSizeLessThanHashLen(HASH_SIZE))
      && out[..] == old(out[..])
      && lib.log == old(lib.log)
    ensures HASH_SIZE <= out.Length ==>
      && r == Ok(())
      && out[..HASH_SIZE] == lib.Digest(old(lib.VmMemory(rx.vm)), input)
      && out[HASH_SIZE..] == old(out[HASH_SIZE..])
      && lib.log == old(lib.log) + [LogCalculateHash(rx.vm, input)]
  {
    if out.Length < HASH_SIZE {
      return Err(OutSizeLessThanHashLen(HASH_SIZE));
    }
    WriteHash(lib, rx, input, out);
    r := Ok(());
  }

  /** `calculate_hash_to_vec`: hashes into a fresh `HASH_SIZE`-byte buffer
      and returns it, so the result is exactly the digest `calculate_hash`
      writes for the same VM and input. */
  method CalculateHashToVec(lib: Library, rx: RandomX, input: seq<Byte>) returns (v: seq<Byte>)
    requires lib.CanHash(rx.vm)
    modifies lib`log
    ensures |v| == HASH_SIZE
    ensures v == lib.Digest(lib.VmMemory(rx.vm), input)
    ensures lib.log == old(lib.log) + [LogCalculateHash(rx.vm, input)]
  {
    var out := new Byte[HASH_SIZE];
    WriteHash(lib, rx, input, out);
    v := out[..];
  }

  /** `Drop for RandomX`: one destruction of the owned VM handle; it never
      becomes live again. */
  method Drop(lib: Library, rx: RandomX)
    requires lib.Valid()
    requires rx.vm in lib.state && lib.state[rx.vm].VmLive?
    modifies lib`log, lib`state
    ensures lib.Valid() && Successor(old(lib.state), lib.state)
    ensures lib.state == old(lib.state)[rx.vm := Released]
    ensures lib.log == old(lib.log) + [LogDestroyVm(rx.vm)]
  {
    lib.DestroyVm(rx.vm);
  }

  /** The middle of both tests: hash `input` into a `HASH_SIZE` buffer with
      `calculate_hash`, then drop the VM at the end of its scope. */
  method HashAndDrop(lib: Library, rx: RandomX, input: seq<Byte>) returns (digest: seq<Byte>)
    requires lib.Valid() && lib.CanHash(rx.vm)
    modifies lib`log, lib`state
    ensures lib.Valid()
    ensures lib.state == old(lib.state)[rx.vm := Released]
    ensures digest == lib.Digest(old(lib.VmMemory(rx.vm)), input)
  {
    var out := new Byte[HASH_SIZE];
    var hashed := CalculateHash(lib, rx, input, out);
    digest := out[..];
    Drop(lib, rx);
  }

  /** The wrapper's light-mode test: with the default flags `defaults`
      (`RandomxFlags::default()`, which lacks `FULLMEM`), build a cache from
      `key`, create a VM over it, hash `input` into a `HASH_SIZE` buffer, and
      drop the VM and the cache. Every `unwrap` of the test succeeds under the
      requires. */
  method Basic(lib: Library, defaults: Flags, key: Key, input: seq<Byte>) returns (digest: seq<Byte>)
    requires lib.Valid() && !lib.FullMem(defaults)
    modifies lib`log, lib`state, lib`next
    ensures lib.Valid()
    ensures digest == lib.Digest(CacheMemory(key), input)
  {
    var cr := NewCache(lib, defaults, key, true);
    var cache := cr.value;
    var vr := New(lib, defaults, cache, true);
    digest := HashAndDrop(lib, vr.value, input);
    DropCache(lib, cache);
  }

  /** The wrapper's fast-mode test: with the flags `defaults | FULLMEM`,
      build a dataset from `key` (on any host where the construction
      succeeds), create a VM over it, hash `input`, and drop the VM and the
      dataset. The VM hashes over a dataset whose every item is derived from
      `key`. */
  method BasicFast(lib: Library, defaults: Flags, key: Key, input: seq<Byte>, env: Environment)
    returns (digest: seq<Byte>)
    requires lib.Valid()
    requires WellFormed(env) && env.cacheGranted && env.datasetGranted
    requires 1 < env.numCpus ==> AllJoined(env.joined) && env.unwrapped
    modifies lib`log, lib`state, lib`next, lib`datasets
    ensures lib.Valid()
    ensures digest == lib.Digest(DatasetMemory(lib.Items(key)), input)
  {
    var flags := lib.WithFullMem(defaults);
    var dr := NewDataset(lib, flags, key, env);
    var dataset := dr.value;
    var vr := NewFast(lib, flags, dataset, true);
    digest := HashAndDrop(lib, vr.value, input);
    DropDataset(lib, dataset);
  }

  /** Both tests expect the same digest for the same key and input. Given
      RandomX's guarantee that the two modes agree, they get it: the fast VM
      hashes over a dataset the partitioned fill derived completely from the
      key. */
  method LightAndFastAgree(lib: Library, defaults: Flags, key: Key, input: seq<Byte>, env: Environment)
    returns (light: seq<Byte>, fast: seq<Byte>)
    requires lib.Valid() && !lib.FullMem(defaults) && lib.ModesAgree(key)
    requires WellFormed(env) && env.cacheGranted && env.datasetGranted
    requires 1 < env.numCpus ==> AllJoined(env.joined) && env.unwrapped
    modifies lib`log, lib`state, lib`next, lib`datasets
    ensures |light| == HASH_SIZE
    ensures light == fast
  {
    light := Basic(lib, defaults, key, input);
    fast := BasicFast(lib, defaults, key, input, env);
  }
}

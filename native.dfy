/** The native RandomX library as the wrapper sees it through its bindings:
    opaque handles, the calls made on them (kept in a log, in order), the
    lifecycle of every handle, and the derivation functions the wrapper never
    looks inside (dataset items, digest bytes), given to the model as values. */
module Native {
  import opened Partition
  import opened Fill

  type Byte = bv8
  /** `RandomxFlags::bits()`: the wrapper passes the flag bits through and
      never inspects them; the library reads the full-memory bit. */
  type Flags = bv32
  /** A non-null native pointer. */
  type Handle = nat
  type Key = seq<Byte>
  /** One dataset item (RANDOMX_DATASET_ITEM_SIZE bytes in the library). */
  type Item = seq<Byte>

  /** `RANDOMX_HASH_SIZE`: the digest length in bytes. */
  const HASH_SIZE: nat := 32

  /** A pointer the library may return null. */
  datatype Option<+T> = None | Some(value: T)

  /** What a VM reads when it hashes: a cache, modelled by the key it was
      initialised with, or the items of a dataset. */
  datatype Memory = CacheMemory(key: Key) | DatasetMemory(items: seq<Item>)

  /** One call into the library, with its arguments and, for allocations, what it returned. */
  datatype Call =
    | LogAllocCache(flags: Flags, result: Option<Handle>)
    | LogInitCache(cache: Handle, key: Key)
    | LogReleaseCache(cache: Handle)
    | LogAllocDataset(flags: Flags, result: Option<Handle>)
    | LogInitDataset(dataset: Handle, cache: Handle, start: nat, count: nat)
    | LogReleaseDataset(dataset: Handle)
    | LogCreateVm(flags: Flags, cacheArg: Option<Handle>, datasetArg: Option<Handle>, result: Option<Handle>)
    | LogCalculateHash(vm: Handle, input: seq<Byte>)
    | LogDestroyVm(vm: Handle)

  /** Where a handle is in its life. A released handle is never used again.
      A live VM remembers the flags and the cache and dataset pointers it was
      created with. */
  datatype HandleState =
    | CacheAllocated
    | CacheReady(key: Key)
    | DatasetLive
    | VmLive(flags: Flags, cache: Option<Handle>, dataset: Option<Handle>)
    | Released
  {
    predicate IsCache() { CacheAllocated? || CacheReady? }
  }

  /** `s1` follows `s0`: no handle disappears and no released handle comes back. */
  ghost predicate Successor(s0: map<Handle, HandleState>, s1: map<Handle, HandleState>) {
    forall h :: h in s0 ==> h in s1 && (s0[h] == Released ==> s1[h] == Released)
  }

  /** Or-ing `bit` into `flags` sets every bit of `bit`. */
  lemma OrSetsBit(flags: Flags, bit: Flags)
    ensures (flags | bit) & bit == bit
  {
  }

  /** Or-ing `bit` into `flags` keeps every other bit of `flags`. */
  lemma OrKeepsOtherBits(flags: Flags, bit: Flags)
    ensures (flags | bit) & !bit == flags & !bit
  {
  }

  /** Or-ing `bit` into `flags` that already hold it changes nothing. */
  lemma OrHeldBit(flags: Flags, bit: Flags)
    ensures flags & bit == bit ==> flags | bit == flags
  {
  }

  class Library {
    /** `randomx_dataset_item_count()`. */
    const itemCount: nat
    /** The item that `randomx_init_dataset` writes at index `i` from a cache
        initialised with `key`. */
    const item: (Key, nat) -> Item
    /** Byte `j` of the digest a VM computes for `input` over the given memory. */
    const hashByte: (Memory, seq<Byte>, nat) -> Byte
    /** `RANDOMX_FLAG_FULL_MEM`, the bit behind `RandomxFlags::FULLMEM`: a VM
        created with it hashes over the full dataset. */
    const fullMemBit: Flags

    var log: seq<Call>
    var state: map<Handle, HandleState>
    /** The handle the next successful allocation returns. */
    var next: Handle
    /** The item region behind each allocated dataset, as
        `randomx_get_dataset_memory` exposes it. */
    var datasets: map<Handle, array<Item>>

    /** Every known handle was handed out before `next`, the full-memory flag
        is a real bit, and no two dataset handles share an item region. */
    ghost predicate Valid()
      reads this
    {
      && (forall h :: h in state ==> h < next)
      && fullMemBit != 0
      && (forall a, b :: a in datasets && b in datasets && a != b ==> datasets[a] != datasets[b])
    }

    constructor (itemCount: nat, item: (Key, nat) -> Item, hashByte: (Memory, seq<Byte>, nat) -> Byte, fullMemBit: Flags)
      requires fullMemBit != 0
      ensures Valid()
      ensures this.itemCount == itemCount && this.item == item && this.hashByte == hashByte
      ensures this.fullMemBit == fullMemBit
      ensures log == [] && state == map[] && next == 0 && datasets == map[]
    {
      this.itemCount := itemCount;
      this.item := item;
      this.hashByte := hashByte;
      this.fullMemBit := fullMemBit;
      log := [];
      state := map[];
      next := 0;
      datasets := map[];
    }

    /** `flags` contains `FULLMEM`. */
    predicate FullMem(flags: Flags) {
      flags & fullMemBit != 0
    }

    /** `flags | RandomxFlags::FULLMEM`: the result has `FULLMEM` and keeps
        every other bit of `flags`; a set that already holds it is unchanged. */
    function WithFullMem(flags: Flags): (f: Flags)
      requires fullMemBit != 0
      ensures FullMem(f)
      ensures f & !fullMemBit == flags & !fullMemBit
      ensures flags & fullMemBit == fullMemBit ==> f == flags
    {
      OrSetsBit(flags, fullMemBit);
      OrKeepsOtherBits(flags, fullMemBit);
      OrHeldBit(flags, fullMemBit);
      flags | fullMemBit
    }

    /** The per-index item function of a cache initialised with `key`. */
    function ItemsOf(key: Key): nat -> Item {
      (i: nat) => item(key, i)
    }

    /** The contents of a dataset fully derived from `key`. */
    function Items(key: Key): (s: seq<Item>)
      ensures |s| == itemCount
      ensures forall i :: 0 <= i < itemCount ==> s[i] == item(key, i)
    {
      Filled(itemCount, ItemsOf(key))
    }

    /** The `HASH_SIZE`-byte digest of `input` over `mem`. */
    function Digest(mem: Memory, input: seq<Byte>): (d: seq<Byte>)
      ensures |d| == HASH_SIZE
      ensures forall j :: 0 <= j < HASH_SIZE ==> d[j] == hashByte(mem, input, j)
    {
      seq(HASH_SIZE, j requires 0 <= j => hashByte(mem, input, j))
    }

    /** RandomX's own guarantee, which the wrapper relies on: hashing over the
        full dataset derived from `key` gives the digest of hashing over the
        cache initialised with `key`. */
    ghost predicate ModesAgree(key: Key) {
      forall input :: Digest(DatasetMemory(Items(key)), input) == Digest(CacheMemory(key), input)
    }

    /** `randomx_alloc_cache`: a fresh handle, or null when the allocator refuses. */
    method AllocCache(flags: Flags, granted: bool) returns (h: Option<Handle>)
      requires Valid()
      modifies this`log, this`state, this`next
      ensures Valid() && Successor(old(state), state)
      ensures h == if granted then Some(old(next)) else None
      ensures granted ==> state == old(state)[old(next) := CacheAllocated] && next == old(next) + 1
      ensures !granted ==> state == old(state) && next == old(next)
      ensures log == old(log) + [LogAllocCache(flags, h)]
    {
      if granted {
        h := Some(next);
        state := state[next := CacheAllocated];
        next := next + 1;
      } else {
        h := None;
      }
      log := log + [LogAllocCache(flags, h)];
    }

    /** `randomx_init_cache`: the cache's contents become those derived from `key`. */
    method InitCache(cache: Handle, key: Key)
      requires Valid()
      requires cache in state && state[cache].IsCache()
      modifies this`log, this`state
      ensures Valid() && Successor(old(state), state)
      ensures state == old(state)[cache := CacheReady(key)]
      ensures log == old(log) + [LogInitCache(cache, key)]
    {
      state := state[cache := CacheReady(key)];
      log := log + [LogInitCache(cache, key)];
    }

    /** `randomx_release_cache`. */
    method ReleaseCache(cache: Handle)
      requires Valid()
      requires cache in state && state[cache].IsCache()
      modifies this`log, this`state
      ensures Valid() && Successor(old(state), state)
      ensures state == old(state)[cache := Released]
      ensures log == old(log) + [LogReleaseCache(cache)]
    {
      state := state[cache := Released];
      log := log + [LogReleaseCache(cache)];
    }

    /** `randomx_alloc_dataset`: a fresh handle, or null when the allocator refuses. */
    method AllocDataset(flags: Flags, granted: bool) returns (h: Option<Handle>)
      requires Valid()
      modifies this`log, this`state, this`next, this`datasets
      ensures Valid() && Successor(old(state), state)
      ensures h == if granted then Some(old(next)) else None
      ensures granted ==>
        && state == old(state)[old(next) := DatasetLive] && next == old(next) + 1
        && old(next) in datasets && fresh(datasets[old(next)])
        && datasets == old(datasets)[old(next) := datasets[old(next)]]
        && datasets[old(next)].Length == itemCount
      ensures !granted ==> state == old(state) && next == old(next) && datasets == old(datasets)
      ensures log == old(log) + [LogAllocDataset(flags, h)]
    {
      if granted {
        h := Some(next);
        var region := new Item[itemCount];
        datasets := datasets[next := region];
        state := state[next := DatasetLive];
        next := next + 1;
      } else {
        h := None;
      }
      log := log + [LogAllocDataset(flags, h)];
    }

    /** `randomx_init_dataset(dataset, cache, start, count)`: writes the items
        of `[start, start + count)` of the dataset's memory, each from the
        cache's key and its own index, and touches nothing else. */
    method InitDataset(dataset: Handle, cache: Handle, start: nat, count: nat)
      requires dataset in state && state[dataset] == DatasetLive && dataset in datasets
      requires cache in state && state[cache].CacheReady?
      requires start + count <= datasets[dataset].Length
      modifies this`log, datasets[dataset]
      ensures datasets[dataset][..] == Write(old(datasets[dataset][..]), ItemsOf(state[cache].key), Range(start, count))
      ensures log == old(log) + [LogInitDataset(dataset, cache, start, count)]
    {
      var key := state[cache].key;
      var memory := datasets[dataset];
      forall i | start <= i < start + count {
        memory[i] := item(key, i);
      }
      log := log + [LogInitDataset(dataset, cache, start, count)];
    }

    /** `randomx_release_dataset`. */
    method ReleaseDataset(dataset: Handle)
      requires Valid()
      requires dataset in state && state[dataset] == DatasetLive
      modifies this`log, this`state
      ensures Valid() && Successor(old(state), state)
      ensures state == old(state)[dataset := Released]
      ensures log == old(log) + [LogReleaseDataset(dataset)]
    {
      state := state[dataset := Released];
      log := log + [LogReleaseDataset(dataset)];
    }

    /** `randomx_create_vm(flags, cache, dataset)`: a fresh VM handle that
        remembers its flags and the cache and dataset pointers, or null when
        the library refuses. */
    method CreateVm(flags: Flags, cacheArg: Option<Handle>, datasetArg: Option<Handle>, granted: bool)
      returns (h: Option<Handle>)
      requires Valid()
      requires cacheArg.Some? ==> cacheArg.value in state && state[cacheArg.value].CacheReady?
      requires datasetArg.Some? ==> datasetArg.value in state && state[datasetArg.value] == DatasetLive
      modifies this`log, this`state, this`next
      ensures Valid() && Successor(old(state), state)
      ensures h == if granted then Some(old(next)) else None
      ensures granted ==> state == old(state)[old(next) := VmLive(flags, cacheArg, datasetArg)] && next == old(next) + 1
      ensures !granted ==> state == old(state) && next == old(next)
      ensures log == old(log) + [LogCreateVm(flags, cacheArg, datasetArg, h)]
    {
      if granted {
        h := Some(next);
        state := state[next := VmLive(flags, cacheArg, datasetArg)];
        next := next + 1;
      } else {
        h := None;
      }
      log := log + [LogCreateVm(flags, cacheArg, datasetArg, h)];
    }

    /** `vm` is a live VM whose memory is there: with `FULLMEM`, a live
        dataset it was created over; without, an initialised cache it was
        created over. */
    predicate CanHash(vm: Handle)
      reads this
    {
      && vm in state && state[vm].VmLive?
      && if FullMem(state[vm].flags) then
           var d := state[vm].dataset;
           d.Some? && d.value in state && state[d.value] == DatasetLive && d.value in datasets
         else
           var c := state[vm].cache;
           c.Some? && c.value in state && state[c.value].CacheReady?
    }

    /** The memory a VM reads while hashing: its dataset's items when it was
        created with `FULLMEM`, otherwise its cache. */
    function VmMemory(vm: Handle): (mem: Memory)
      requires CanHash(vm)
      reads this, datasets.Values
      ensures FullMem(state[vm].flags) <==> mem.DatasetMemory?
    {
      if FullMem(state[vm].flags) then DatasetMemory(datasets[state[vm].dataset.value][..])
      else CacheMemory(state[state[vm].cache.value].key)
    }

    /** `randomx_calculate_hash(vm, input, len, out)`: writes the digest of
        `input` over the VM's memory into the first `HASH_SIZE` bytes of `out`.
        The library does not know how long `out` is; it must hold a whole
        digest. */
    method CalculateHash(vm: Handle, input: seq<Byte>, out: array<Byte>)
      requires CanHash(vm)
      requires HASH_SIZE <= out.Length
      modifies this`log, out
      ensures out[..HASH_SIZE] == Digest(old(VmMemory(vm)), input)
      ensures out[HASH_SIZE..] == old(out[HASH_SIZE..])
      ensures log == old(log) + [LogCalculateHash(vm, input)]
    {
      var mem := VmMemory(vm);
      forall j | 0 <= j < HASH_SIZE {
        out[j] := hashByte(mem, input, j);
      }
      log := log + [LogCalculateHash(vm, input)];
    }

    /** `randomx_destroy_vm`. */
    method DestroyVm(vm: Handle)
      requires Valid()
      requires vm in state && state[vm].VmLive?
      modifies this`log, this`state
      ensures Valid() && Successor(old(state), state)
      ensures state == old(state)[vm := Released]
      ensures log == old(log) + [LogDestroyVm(vm)]
    {
      state := state[vm := Released];
      log := log + [LogDestroyVm(vm)];
    }
  }
}

# RandomX wrapper: a Dafny model

This project models the Rust wrapper around the native RandomX proof-of-work
library. The hash algorithm, cache derivation and dataset item derivation all
live inside the native library. The model treats them as opaque functions and
covers the logic the wrapper owns:

- **Dataset construction** (`RandomxDataset::new`). The wrapper builds an
  intermediate cache, allocates the dataset, and splits the item indices
  `[0, count)` into one range per CPU. The last range takes the remainder.
  It then fills the ranges with `randomx_init_dataset` workers, joins them and
  takes the dataset back. Each failure maps to the matching error, in the
  source's order.
- **Cache construction and release** (`RandomxCache::new`, the two `Drop` impls).
  A cache is allocated, then initialised exactly once with the key. Every
  owner releases its handle exactly once.
- **The hashing VM** (`RandomX`). `new` binds a VM to a cache and `new_fast`
  binds it to a dataset. `calculate_hash` refuses a short output buffer before
  making any native call. `calculate_hash_to_vec` returns a buffer of exactly
  the digest size. `Drop` destroys the VM once.

Files:

- `errors.dfy`: the error enum and `Result`.
- `partition.dfy`: the range plan. It gives the plan in closed form, then
  proves the source's planning loop equal to it and proves that the plan
  tiles `[0, count)`.
- `fill.dfy`: what the init calls do to the item memory. It proves that any
  worker order leaves the same memory as a single call.
- `native.dfy`: the native library as a class `Library`. The class keeps a log
  of every foreign call, the lifecycle state of every handle, the item region
  behind every dataset handle, and the opaque item and digest functions.
  A live VM handle remembers the flags and the cache and dataset pointers it
  was created with. The native hash reads the dataset when the flags hold
  `FULLMEM`, and the cache otherwise.
- `dataset.dfy` and `vm.dfy`: the wrapper itself. As in the source, the
  wrapper's owners hold only their handles.
- `maps.dfy`: two facts about updating a map twice.

External inputs are parameters. These are allocation outcomes, the CPU count,
the order in which workers run, join results, the outcome of
`Arc::try_unwrap`, and VM creation outcomes.

## Model

| member | source | states |
|---|---|---|
| `Partition.Ranges` | randomx/src/dataset.rs:32-50 | The plan has one range with at most one CPU, otherwise one per CPU, and every range ends by `count`. |
| `Partition.PlanRanges` | randomx/src/dataset.rs:40-61 | The planning loop produces exactly `numCpus` ranges. Every range but the last has `count / numCpus` items and the last has `count / numCpus + count % numCpus`. The running `start` makes the ranges tile `[0, count)`. The result equals the closed-form plan. |
| `Partition.RangeAtEnd` | randomx/src/dataset.rs:47-51 | Range `i` ends after `i + 1` common-length ranges. The last range ends exactly at `count`. |
| `Partition.RangesTile` | randomx/src/dataset.rs:42-60 | For every count and CPU count, including `count < n`, the first range starts at 0, each range starts where the previous one ends, and the last one ends at `count`. |
| `Partition.TilesCoverExactlyOnce` | randomx/src/dataset.rs:42-60 | Contiguous ranges from 0 to `count` cover every index of `[0, count)`. No two ranges share an index, and none reaches past `count`. |
| `Fill.Write` | randomx/src/dataset.rs:53-58 | One init call over a range sets each index in the range to its derived item and leaves every other index as it was. |
| `Fill.ApplyAll` | randomx/src/dataset.rs:44-65 | Running the workers one after another in a given order keeps the memory length. |
| `Fill.ApplyAllAt` | randomx/src/dataset.rs:44-65 | After any schedule, an index holds its derived item if and only if some worker's range contains it. Otherwise it keeps its old value. |
| `Fill.WriteAllIsFilled` | randomx/src/dataset.rs:32-35 | The single call `init(0, count)` derives every item. |
| `Fill.AnyScheduleWritesAll` | randomx/src/dataset.rs:44-65 | Running a tiling's workers in any order derives every item. |
| `Fill.PartitionedFillMatchesSingleCall` | randomx/src/dataset.rs:32-61 | The per-CPU plan, run in any worker order, leaves the same memory as the single-call branch. |
| `Fill.FillOrderIndependent` | randomx/src/dataset.rs:52-65 | Two worker orders of the same plan leave the same memory. |
| `Dataset.SingleCpuMakesOneCall` | randomx/src/dataset.rs:32-35 | With at most one CPU, the only init call is `init(dataset, cache, 0, count)`. |
| `Dataset.NewCache` | randomx/src/dataset.rs:122-134 | A null allocation gives `CacheAllocError`, and the allocation is the only call made. Otherwise the new handle is initialised exactly once with the key, and the cache is returned. |
| `Dataset.DropCache` | randomx/src/dataset.rs:137-141 | Dropping a cache releases its handle once. The handle is then released and never live again. |
| `Dataset.DropDataset` | randomx/src/dataset.rs:111-115 | Dropping a dataset releases its handle once. The handle is then released and never live again. |
| `Dataset.JoinAll` | randomx/src/dataset.rs:63-65 | The join loop succeeds if and only if every worker joins. Otherwise the error is `ThreadError`. |
| `Dataset.FillDataset` | randomx/src/dataset.rs:30-61 | One call, or one worker per planned range in the host's order, makes exactly the init calls of the plan. Afterwards every item is derived from the cache's key. |
| `Dataset.RunWorkers` | randomx/src/dataset.rs:44-59 | Workers run one after another in the host's order, each making one init call over its planned range. The log gains exactly those calls in that order, and the memory is the result of applying those writes in turn. |
| `Dataset.FillAndTakeBack` | randomx/src/dataset.rs:30-73 | Once both allocations succeed, the log gains the planned init calls, then a dataset release on failure, then the cache release. The region of a returned dataset holds every item derived from the cache's key. |
| `Dataset.JoinAndTakeBack` | randomx/src/dataset.rs:63-73 | A failed join gives `ThreadError`. After all joins succeed, a failed unwrap gives `DatasetAllocError`. Either error releases the dataset, then the cache. On success only the cache is released and the dataset is returned. |
| `Dataset.NewDataset` | randomx/src/dataset.rs:21-74 | A cache allocation failure gives `CacheAllocError` before any dataset allocation. A null dataset gives `DatasetAllocError` and the cache is released. Otherwise the log lists the exact calls: allocations, key init, the planned init calls in schedule order, and the releases. Join and unwrap failures give `ThreadError` and `DatasetAllocError`, with no dataset returned. A granted dataset handle gets a fresh item region, and the region of a returned dataset holds every item derived from the key. |
| `Native.Library.AllocCache` | randomx/src/dataset.rs:123-127 | `randomx_alloc_cache` returns a fresh handle or null, and the call is logged. |
| `Native.Library.InitCache` | randomx/src/dataset.rs:129-131 | `randomx_init_cache` makes the cache's contents those derived from the key. |
| `Native.Library.ReleaseCache` | randomx/src/dataset.rs:139 | Releasing needs a live cache handle and leaves it released. |
| `Native.Library.AllocDataset` | randomx/src/dataset.rs:24-28 | `randomx_alloc_dataset` returns a fresh handle with a fresh `itemCount`-item region, or null, and the call is logged. |
| `Native.Library.InitDataset` | randomx/src/dataset.rs:53-58 | `randomx_init_dataset` writes the derived items of exactly its range into the dataset handle's own region and touches no other index. |
| `Native.Library.ReleaseDataset` | randomx/src/dataset.rs:113 | Releasing needs a live dataset handle and leaves it released. |
| `Native.Library.WithFullMem` | randomx/src/flag.rs:24-25 | `flags` or-ed with `RandomxFlags::FULLMEM` holds `FULLMEM`, keeps every other bit, and is unchanged when `flags` already holds it. |
| `Native.Library.CreateVm` | randomx/src/lib.rs:21-25 | `randomx_create_vm` logs the flags and the cache and dataset pointers it was given. It returns null, or a fresh live VM handle that records all three. |
| `Native.Library.VmMemory` | randomx/src/flag.rs:24-25 | A VM hashes over its dataset's items exactly when its flags hold `FULLMEM`, and otherwise over its cache. |
| `Native.Library.CalculateHash` | randomx/src/lib.rs:62-70 | `randomx_calculate_hash` takes only the VM, the input and the buffer. The digest of the input over the memory the VM was created with goes into the first `HASH_SIZE` bytes, and the remaining bytes are untouched. |
| `Native.Library.DestroyVm` | randomx/src/lib.rs:77 | Destroying needs a live VM handle and leaves it released. |
| `Vm.New` | randomx/src/lib.rs:20-30 | The VM is created with the caller's flags over the cache handle with a null dataset. A null VM gives `FailedToInitializeVM`. Otherwise the new VM records the flags, the cache and no dataset. Without `FULLMEM` it hashes over the cache's key. |
| `Vm.NewFast` | randomx/src/lib.rs:32-42 | The VM is created with the caller's flags over the dataset handle with a null cache. A null VM gives `FailedToInitializeVM`. Otherwise the new VM records the flags, the dataset and no cache. With `FULLMEM` it hashes over that dataset's items. |
| `Vm.WriteHash` | randomx/src/lib.rs:62-71 | One native hash call writes the digest of the input, over the memory the VM was created with, into the buffer's prefix. |
| `Vm.CalculateHash` | randomx/src/lib.rs:44-54 | A buffer shorter than `HASH_SIZE` gives `OutSizeLessThanHashLen(HASH_SIZE)` for any VM, with no native call and the buffer unchanged. Otherwise, for a VM that has memory to hash over, the result is `Ok(())` after exactly one hash call. Only the first `HASH_SIZE` bytes receive the digest. |
| `Vm.CalculateHashToVec` | randomx/src/lib.rs:56-60 | The result has exactly `HASH_SIZE` bytes and is the digest `calculate_hash` writes for the same VM and input, after one hash call. |
| `Vm.Drop` | randomx/src/lib.rs:74-80 | Dropping a VM destroys its handle once. A destroyed VM never becomes live again. |
| `Vm.HashAndDrop` | randomx/src/lib.rs:96-101 | The test's `calculate_hash` into a `HASH_SIZE` buffer returns the digest over the VM's memory. The VM is then destroyed, and no handle is added. |
| `Vm.Basic` | randomx/src/lib.rs:86-102 | The light-mode test, with default flags lacking `FULLMEM` and every step succeeding, yields the digest over the cache built from the key. |
| `Vm.BasicFast` | randomx/src/lib.rs:104-120 | The fast-mode test, with the default flags plus `FULLMEM`, on any host where construction succeeds, yields the digest over a dataset whose every item is derived from the key. |
| `Vm.LightAndFastAgree` | randomx/src/lib.rs:86-120 | Given RandomX's guarantee that its two modes agree, the light test (`default()`) and the fast test (`default()` or-ed with `FULLMEM`) produce the same `HASH_SIZE`-byte digest. |

## Left out

- `RandomxDataset::open` (randomx/src/dataset.rs:88-104) loads a dataset from a memory-mapped file. It is file I/O, so the model claims no size check and no round trip for it. As written, it passes an undefined `ptr` to `randomx_get_dataset_memory`, copies before its null check, and never checks the file's length. `Error::IOError` is produced only there, and its payload is not modelled.
- `RandomxDataset::as_slice` builds a raw slice from a native pointer. The library's item region for the handle stands in for that memory.
- Threads, `Arc`, `Mutex` and the lock-bypassing `data_ptr` accesses are not modelled. Workers run one after another, in an arbitrary order given as a parameter, and the model proves the result does not depend on that order. Parallel interleaving itself is not modelled.
- After a failed join, the source returns while later workers may still run and hold references. The dataset and cache are then freed when the last reference drops. The model releases both at the return.
- `Arc::try_unwrap` is a parameter. The model does not claim it always succeeds after every join.
- `num_cpus::get()` and `randomx_dataset_item_count()` are inputs. Flags are 32-bit values passed through unchanged. The model reads only the `FULLMEM` bit, whose value is a parameter of the library (`Library.fullMemBit`, nonzero). The generated bindings that fix the bit values (randomx/build.rs) are not part of this model, and neither are the other flags' effects (large pages, JIT, hardware AES, Argon2 variants).
- Native.Library.VmMemory: a VM whose flags and pointers disagree (`new` with `FULLMEM`, or `new_fast` without it) has no hashable memory in the model (`CanHash` is false), so no digest is claimed for it, though `Vm.CalculateHash` still refuses a short buffer for it. The wrapper does not check the flags, and what the native library does with such a VM is not modelled.
- The RandomX algorithm is an opaque per-index item function and an opaque per-byte digest function. The digest depends only on the bound memory and the input. The VM's internal scratch state is not modelled. That the two modes agree is a stated guarantee of the library (`Library.ModesAgree`), not a proof. The concrete test vector cannot be checked.
- The model requires a VM's cache or dataset to be live when the VM hashes, as the library demands. Nothing stops the wrapper from dropping them first: the source keeps only a raw pointer, so the model does not claim that.
- Native handles are never reused after release.
- `Error::FailedToInitializeDataset` is never produced by the source, so it is declared and never returned.
- Vm.WriteHash: the digest is stated over the VM's memory as it was when the call began. The verifier cannot rule out that the output buffer is a dataset's item region; in the source, the two have different types and cannot alias.
- Dataset.JoinAndTakeBack: on a failed `Arc::try_unwrap` the source returns while another reference holder keeps the dataset and the cache alive, and both releases happen only when that holder drops. The model releases both at the return. After every join succeeds the workers' clones are already dropped, so the source cannot actually reach this path; the model keeps it as a parameter.

## Notes on the source

- With `num_cpus <= 1` the source makes a single call, so zero CPUs behaves like one. The model follows the code.
- The source has two allocation errors, `CacheAllocError` and `DatasetAllocError`. It also reports a failed `Arc::try_unwrap` as `DatasetAllocError`. The model follows the code.

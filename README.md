# Milvus core logic, modelled in Dafny

This project models six self-contained pieces of sequential logic from the
Milvus vector database and proves properties about each of them. Each
source file is one Dafny module.

- **MergeLayered** (`merge_layered.dfy`) is the layered merge planner of
  `MergeLayeredStrategy::RegroupFiles`. It:
  - sorts the held segment files by descending size;
  - picks at most one "priority" pair whose merged size would exceed the
    largest file's `index_file_size`;
  - releases oversized files;
  - buckets the rest into eight size layers between 4 MB and 64 GB, or into
    the huge bucket;
  - carries lone old files forward from layer to layer;
  - emits groups of two or more files and unmarks everything else.

  The planner is an imperative method over a `FilesHolder` object whose
  `UnmarkFile` calls are logged. It is proved equal to the specification
  function `PlanFor`. Lemmas about `PlanFor` state the merge invariants:
  - the groups and the released and kept files partition the held files;
  - every group has at least two files;
  - no layer group or huge group holds an oversized file, but the priority
    pair, chosen first, may: an oversized largest file among three or more
    is merged with the smallest;
  - every file lands in the first layer whose bound is above its size;
  - the fate of carried files;
  - the single-huge-file case.
- **VectorSource** (`vector_source.dfy`) is the insert batch buffer. Each
  `Add` hands at most the remaining vectors to a segment writer and advances
  the cursor only when the write succeeds.
- **FaissFlatPass** (`faiss_flat_pass.dfy`) is the scheduler pass that puts
  brute-force search tasks on the CPU or on a GPU. It consists of the
  threshold default in `Init` and the decision chain in `Run`.
- **VecIndex** (`vec_index.dfy`) models the knowhere index metadata:
  - the type tag and mode set by the base, IDMAP and NSG constructors;
  - the in-place offset-to-uid remapping of result ids;
  - the size accounting, including the rule that an unset size (-1) throws;
  - the NSG operations that always throw, and BuildAll dispatching to
    NSG's own override.
- **ClientProxy** (`client_proxy.dfy`) is the client SDK's local logic:
  - checking a connection URI and splitting it at the first `:`;
  - the `get_config` / `set_config` command strings;
  - reshaping a flat top-k reply into per-query rows with trailing `-1`
    ids trimmed;
  - the Search guard for an empty reply;
  - the Flush fan-out;
  - the `params` lookup of GetIndexInfo.
- **ConfigStore** (`config_store.dfy`) is the runtime configuration
  contract that the Python tests exercise. It has:
  - the exact key space of seven categories;
  - one accept/reject rule per value type, and the rule that
    `cache_size` and `insert_buffer_size` together fit the host's memory;
  - a store object whose `Set` replaces the value a later `Get` returns.

  The rules are stated generally and checked against the values the tests
  send.

- **Wrappers** (`wrappers.dfy`) holds the shared `Option`, `Result` and
  `Outcome` types.

Clocks, the gRPC transport, the segment writer, the id generator, the
resource manager and the host's memory and GPU count are not modelled.
Whatever they return enters as a parameter.

## Model

| member | source | states |
|---|---|---|
| MergeLayered.SortBySizeDesc | core/src/db/merge/MergeLayeredStrategy.cpp:47-51 | the files come out ordered by descending file size, with the same files (a permutation) and the same count |
| MergeLayered.InsertBySize | core/src/db/merge/MergeLayeredStrategy.cpp:48-51 | inserting one file into a descending list keeps it descending and adds exactly that file |
| MergeLayered.AsUnsigned | core/src/db/merge/MergeLayeredStrategy.cpp:56-58 | the signed `index_file_size` compared with an unsigned size: non-negative values are unchanged, negative ones wrap by 2^64 |
| MergeLayered.PriorityScan | core/src/db/merge/MergeLayeredStrategy.cpp:57-65 | a scan from index j down to index 2 finds the last file whose size plus the largest size exceeds the largest file's index_file_size, and no later file qualifies; None means no file in 2..j qualifies |
| MergeLayered.TwoFilesHaveNoPriorityPair | core/src/db/merge/MergeLayeredStrategy.cpp:57 | with exactly two files the scan body never runs and no priority pair is chosen |
| MergeLayered.WithoutPair | core/src/db/merge/MergeLayeredStrategy.cpp:61-62 | erasing the pair removes exactly the largest file and the chosen file, leaving two fewer files |
| MergeLayered.LayerFrom | core/src/db/merge/MergeLayeredStrategy.cpp:77-84 | the layer scan from k returns the first layer whose bound strictly exceeds the size, or None when no bound from k on does |
| MergeLayered.HugeIffNoLayer | core/src/db/merge/MergeLayeredStrategy.cpp:30-39 | a file matches no layer exactly when its size is at least 64 GB (2^36 bytes) |
| MergeLayered.LayerRange | core/src/db/merge/MergeLayeredStrategy.cpp:30-39 | the matched layer's bound is above the size and the previous bound is not |
| MergeLayered.BoundsIncrease | core/src/db/merge/MergeLayeredStrategy.cpp:30-39 | the layer bounds ascend strictly |
| MergeLayered.DistributeKeeps | core/src/db/merge/MergeLayeredStrategy.cpp:69-89 | bucketing loses and adds no file: the layers, the huge bucket and the released files hold exactly the input; each layer holds only files below its bound, the huge bucket only files of 64 GB or more, and the released files are all oversized |
| MergeLayered.PlaceKeeps | core/src/db/merge/MergeLayeredStrategy.cpp:70-88 | placing one file keeps the buckets well formed and adds exactly that file |
| MergeLayered.PlaceInLayer | core/src/db/merge/MergeLayeredStrategy.cpp:77-84 | pushing a non-oversized file into a layer whose bound it is below keeps every layer bounded and adds that file |
| MergeLayered.PlaceInHuge | core/src/db/merge/MergeLayeredStrategy.cpp:86-88 | pushing an unmatched file into the huge bucket keeps the buckets well formed and adds that file |
| MergeLayered.PlaceReleased | core/src/db/merge/MergeLayeredStrategy.cpp:71-75 | releasing an oversized file keeps the buckets well formed and adds that file |
| MergeLayered.DistributePlaces | core/src/db/merge/MergeLayeredStrategy.cpp:69-89 | every file is released when oversized, else it lands in the first layer whose bound exceeds its size, else in the huge bucket |
| MergeLayered.PlaceGrows | core/src/db/merge/MergeLayeredStrategy.cpp:69-89 | placing a later file does not move one already placed |
| MergeLayered.ForcePassKeeps | core/src/db/merge/MergeLayeredStrategy.cpp:93-114 | after the force pass the layers plus the carried files hold exactly the original layer files; layers stay bounded; at most one file is carried, it is old and below the bound of the last layer visited; layers not yet visited are untouched |
| MergeLayered.ForceStepKeeps | core/src/db/merge/MergeLayeredStrategy.cpp:94-113 | one layer step of the force pass preserves that invariant |
| MergeLayered.SkipKeeps | core/src/db/merge/MergeLayeredStrategy.cpp:95-97 | an empty layer is skipped and the carried file stays carried |
| MergeLayered.JoinKeeps | core/src/db/merge/MergeLayeredStrategy.cpp:100-105 | the carried file joins the next non-empty layer, which stays bounded because bounds ascend |
| MergeLayered.TakeOutKeeps | core/src/db/merge/MergeLayeredStrategy.cpp:108-113 | a layer left with one file older than FORCE_MERGE_THREASHOLD seconds gives that file up to be carried |
| MergeLayered.EmitStepKeeps | core/src/db/merge/MergeLayeredStrategy.cpp:126-134 | one layer is either released (one file), emitted as a group (two or more) or dropped (empty); all its files are accounted for |
| MergeLayered.EmitLayersSized | core/src/db/merge/MergeLayeredStrategy.cpp:125-135 | every emitted layer group has at least two files |
| MergeLayered.EmitLayersKeeps | core/src/db/merge/MergeLayeredStrategy.cpp:125-135 | emitted groups plus released files hold exactly the files of the layers |
| MergeLayered.EmittedGroupsBelowHuge | core/src/db/merge/MergeLayeredStrategy.cpp:125-135 | every emitted layer group holds only files below 64 GB |
| MergeLayered.SettleHugeSpec | core/src/db/merge/MergeLayeredStrategy.cpp:116-162 | the huge bucket and the carried files form a single group exactly when there are at least two of them and huge is non-empty; with huge empty the carried files are released; a single huge file with nothing carried is kept, neither grouped nor unmarked; nothing is lost |
| MergeLayered.PriorityPair | core/src/db/merge/MergeLayeredStrategy.cpp:55-65 | there is no priority group exactly when no file at index 2 or above exceeds the limit; otherwise the group is the largest file with the last qualifying file |
| MergeLayered.PriorityKeeps | core/src/db/merge/MergeLayeredStrategy.cpp:59-62 | the priority group plus the remaining files hold exactly the sorted files |
| MergeLayered.RestPartition | core/src/db/merge/MergeLayeredStrategy.cpp:67-162 | after the priority step, layer groups, the huge group, released and kept files partition the remaining files |
| MergeLayered.PlanSortedPartition | core/src/db/merge/MergeLayeredStrategy.cpp:55-162 | all groups, the released and the kept files partition the sorted files |
| MergeLayered.PlanPartition | core/src/db/merge/MergeLayeredStrategy.cpp:41-162 | with two or more held files every file is in exactly one group or released or kept; with fewer than two there are no groups and nothing is unmarked |
| MergeLayered.PlanGroupsHaveTwoOrMore | core/src/db/merge/MergeLayeredStrategy.cpp:125-135 | every group has at least two files, and there is at most one priority group, of exactly two (also lines 59, 144-146) |
| MergeLayered.OversizedReleased | core/src/db/merge/MergeLayeredStrategy.cpp:71-75 | every oversized file among those left after the priority step is unmarked |
| MergeLayered.OversizedNeverMerged | core/src/db/merge/MergeLayeredStrategy.cpp:71-75 | no layer group or huge group contains an oversized file |
| MergeLayered.OversizedLargestJoinsPriorityPair | core/src/db/merge/MergeLayeredStrategy.cpp:55-65 | with three or more files and an oversized largest one, the priority scan stops at the smallest file and the first group, the priority pair, holds the oversized file (also lines 71-75) |
| MergeLayered.LayerGroupsBelowHuge | core/src/db/merge/MergeLayeredStrategy.cpp:125-135 | layer groups hold only files below 64 GB (also lines 77-84) |
| MergeLayered.HugeGroupContents | core/src/db/merge/MergeLayeredStrategy.cpp:116-146 | the huge bucket holds only files of 64 GB or more, and a huge group is exactly the huge files followed by the carried file |
| MergeLayered.CarriedFileFate | core/src/db/merge/MergeLayeredStrategy.cpp:116-122 | a file carried past the last layer joins the huge group when huge is non-empty; otherwise it is the last file unmarked (also lines 157-161) |
| MergeLayered.SingleHugeFileKept | core/src/db/merge/MergeLayeredStrategy.cpp:137-151 | a file stays held and unmarked exactly when it is the only huge file and nothing is carried; then there is no huge group and the released files are only the bucket and layer releases |
| MergeLayered.FilesHolder.constructor | core/src/db/merge/MergeLayeredStrategy.cpp:41 | the holder starts with the given files and no unmark calls |
| MergeLayered.FilesHolder.HoldFiles | core/src/db/merge/MergeLayeredStrategy.cpp:41 | returns the held files |
| MergeLayered.FilesHolder.UnmarkFile | core/src/db/merge/MergeLayeredStrategy.cpp:73 | logs one unmark call and leaves the held files alone (also lines 128, 150, 154, 160) |
| MergeLayered.UnmarkAll | core/src/db/merge/MergeLayeredStrategy.cpp:152-161 | unmarks the files in order, one call each |
| MergeLayered.AppendAll | core/src/db/merge/MergeLayeredStrategy.cpp:101-103 | the push loop appends the source after the destination (also lines 118-120, 140-142) |
| MergeLayered.FindPriority | core/src/db/merge/MergeLayeredStrategy.cpp:55-65 | the backward scan loop finds exactly the pair the specification picks |
| MergeLayered.FindLayer | core/src/db/merge/MergeLayeredStrategy.cpp:77-84 | the layer loop returns exactly the first matching layer |
| MergeLayered.DistributeFiles | core/src/db/merge/MergeLayeredStrategy.cpp:67-89 | the reverse bucketing loop yields the specified layers and huge bucket and unmarks exactly the oversized files in order |
| MergeLayered.ForceMerge | core/src/db/merge/MergeLayeredStrategy.cpp:91-114 | the force loop yields the specified layers and carried files |
| MergeLayered.EmitGroups | core/src/db/merge/MergeLayeredStrategy.cpp:124-135 | the emission loop appends the specified groups and unmarks the specified single files |
| MergeLayered.SettleHugeFiles | core/src/db/merge/MergeLayeredStrategy.cpp:116-162 | the tail appends the specified huge group and unmarks the specified files |
| MergeLayered.LayerPhases | core/src/db/merge/MergeLayeredStrategy.cpp:67-162 | the phases after the priority step append the layer and huge groups and unmark the released files of the specification |
| MergeLayered.RegroupFiles | core/src/db/merge/MergeLayeredStrategy.cpp:26-165 | returns OK, appends exactly the planned groups to the caller's groups, unmarks exactly the planned released files in order, and leaves the held list alone |
| VectorSource.AddCount | core/src/db/insert/VectorSource.cpp:36-37 | the count added is the request when it fits and otherwise what is left; it never exceeds either |
| VectorSource.CursorAfter | core/src/db/insert/VectorSource.cpp:68-76 | across any run of successful Adds the cursor never decreases and never passes the batch (also lines 36-37) |
| VectorSource.CursorReachesEnd | core/src/db/insert/VectorSource.cpp:97-100 | Adds asking for at least one vector each reach the end after as many calls as vectors remain (also lines 36-37) |
| VectorSource.EndIsFixed | core/src/db/insert/VectorSource.cpp:36-37 | once every vector is added, further Adds add nothing |
| VectorSource.VectorSource.constructor | core/src/db/insert/VectorSource.cpp:26-28 | a new buffer has its cursor at 0, no ids handed over, and the batch it was given |
| VectorSource.VectorSource.GetNumVectorsAdded | core/src/db/insert/VectorSource.cpp:81-84 | the cursor, never beyond the batch |
| VectorSource.VectorSource.AllAdded | core/src/db/insert/VectorSource.cpp:97-100 | true exactly when the cursor is at the end of the batch |
| VectorSource.VectorSource.GetVectorIds | core/src/db/insert/VectorSource.cpp:102-105 | with caller ids, the ids handed over are exactly the prefix up to the cursor |
| VectorSource.VectorSource.SingleVectorSize | core/src/db/insert/VectorSource.cpp:86-95 | dim times sizeof(float) for float data, dim/8 bytes for binary data, 0 when there is neither |
| VectorSource.VectorSource.WriteFor | core/src/db/insert/VectorSource.cpp:54-66 | a float write starts at cursor times dim with added times dim times 4 bytes; a binary write starts at cursor times the vector size; nothing is written when there is no data |
| VectorSource.VectorSource.Add | core/src/db/insert/VectorSource.cpp:30-79 | a generator failure returns first with nothing changed; otherwise the ids are the generated ones or exactly the caller's slice at the cursor; the cursor advances by the count added and the ids are appended only when the write succeeds |
| FaissFlatPass.AsUint64 | core/src/scheduler/selector/FaissFlatPass.cpp:60 | the (uint64_t) cast: non-negative thresholds are unchanged, negative ones wrap to 2^63 or above |
| FaissFlatPass.Decide | core/src/scheduler/selector/FaissFlatPass.cpp:44-74 | a task is not handled exactly when it is not a search task or not FAISS_IDMAP; it goes to a GPU exactly when the gpu is enabled, nq is at least the unsigned threshold and topk is at most the probe limit; otherwise it goes to the CPU |
| FaissFlatPass.NegativeThresholdNeverGpu | core/src/scheduler/selector/FaissFlatPass.cpp:60-62 | a negative threshold keeps every task with nq below 2^63 off the GPU |
| FaissFlatPass.FallbackThresholdKeepsSmallBatchesOnCpu | core/src/scheduler/selector/FaissFlatPass.cpp:29-32 | with the INT32_MAX fallback, every batch of fewer than 2^31 - 1 queries goes to the CPU (also lines 60-62) |
| FaissFlatPass.GpuPlacementMonotone | core/src/scheduler/selector/FaissFlatPass.cpp:57-69 | a GPU placement survives a larger nq and a smaller topk |
| FaissFlatPass.Task.constructor | core/src/scheduler/selector/FaissFlatPass.cpp:45-56 | a task starts with its type, engine, nq and topk, and no label |
| FaissFlatPass.FaissFlatPass.constructor | core/src/scheduler/selector/FaissFlatPass.cpp:26-42 | a pass starts with the given gpu flag, no search gpus and no identity |
| FaissFlatPass.FaissFlatPass.Init | core/src/scheduler/selector/FaissFlatPass.cpp:26-42 | a failed threshold read falls back to INT32_MAX; a failed read of the resources fails after the threshold is set and before the resources and identity are |
| FaissFlatPass.FaissFlatPass.Run | core/src/scheduler/selector/FaissFlatPass.cpp:44-74 | returns false and leaves the label for unhandled tasks; otherwise sets exactly one label, the CPU or the gpu PickResource chose, and returns true |
| VecIndex.VecIndex.constructor | core/src/index/knowhere/knowhere/index/vector_index/VecIndex.h:110-114 | the defaults: empty type tag, CPU mode, no uids and an index size of -1 |
| VecIndex.VecIndex.IdMap | core/src/index/knowhere/knowhere/index/vector_index/IndexIDMAP.h:25-31 | the IDMAP tag, with the mode left at CPU |
| VecIndex.VecIndex.Nsg | core/src/index/knowhere/knowhere/index/vector_index/IndexNSG.h:30-35 | the NSG tag; GPU mode exactly when gpu_num is at least 0, so the default -1 leaves CPU mode |
| VecIndex.VecIndex.GetUids | core/src/index/knowhere/knowhere/index/vector_index/VecIndex.h:62-65 | returns the uid table |
| VecIndex.VecIndex.SetUids | core/src/index/knowhere/knowhere/index/vector_index/VecIndex.h:67-70 | replaces the uid table and nothing else |
| VecIndex.VecIndex.SetIndexSize | core/src/index/knowhere/knowhere/index/vector_index/VecIndex.h:96-99 | replaces the index size and nothing else |
| VecIndex.VecIndex.UidsSize | core/src/index/knowhere/knowhere/index/vector_index/VecIndex.h:83-86 | 0 without a table, eight bytes per uid with one |
| VecIndex.VecIndex.IndexSize | core/src/index/knowhere/knowhere/index/vector_index/VecIndex.h:88-94 | for IDMAP it is count times dim times sizeof(float) and never fails (IndexIDMAP.h:54-57); for other indexes it fails exactly while the size is -1 and otherwise returns it |
| VecIndex.VecIndex.Size | core/src/index/knowhere/knowhere/index/vector_index/VecIndex.h:105-108 | the uid table size plus the index size, failing exactly when IndexSize fails |
| VecIndex.VecIndex.Train | core/src/index/knowhere/knowhere/index/vector_index/IndexNSG.h:47-49 | NSG always throws its "build item dynamically" error; other kinds return what their training did |
| VecIndex.VecIndex.AddWithoutIds | core/src/index/knowhere/knowhere/index/vector_index/IndexNSG.h:52-54 | NSG always throws its "incremental index" error; other kinds return what their add did |
| VecIndex.VecIndex.RunBuildAll | core/src/index/knowhere/knowhere/index/vector_index/IndexNSG.h:43-44 | an NSG index answers with its own override's outcome; every other kind runs the base BuildAll and succeeds exactly when Train and AddWithoutIds both succeed (also VecIndex.h lines 31-35) |
| VecIndex.VecIndex.MapOffsetToUid | core/src/index/knowhere/knowhere/index/vector_index/VecIndex.h:73-81 | without a table the ids are unchanged; with one it succeeds exactly when every id among the first n is below the table size, and then every non-negative id becomes its uid while negative ids stay; on failure the entries before the first bad offset are already rewritten and the rest are untouched |
| VecIndex.BuildAll | core/src/index/knowhere/knowhere/index/vector_index/VecIndex.h:31-35 | Add runs exactly when Train succeeded, BuildAll succeeds exactly when both do, and the first failure is the result |
| VecIndex.SetThenSize | core/src/index/knowhere/knowhere/index/vector_index/VecIndex.h:96-108 | after SetIndexSize(s) with s not -1, Size succeeds with the table size plus s (IDMAP: plus count times dim times 4) |
| VecIndex.SetThenGetUids | core/src/index/knowhere/knowhere/index/vector_index/VecIndex.h:62-70 | SetUids then GetUids returns the same table, and UidsSize follows it (also lines 83-86) |
| ClientProxy.FindFirst | sdk/grpc/ClientProxy.cpp:28 | find_first_of: None exactly when the character is absent, otherwise the index of its first occurrence |
| ClientProxy.UriCheck | sdk/grpc/ClientProxy.cpp:26-30 | a URI passes exactly when it contains ':' |
| ClientProxy.JoinUri | sdk/grpc/ClientProxy.cpp:87 | the address, then ':', then the port |
| ClientProxy.SplitUri | sdk/grpc/ClientProxy.cpp:105-113 | fails with InvalidArgument "Invalid uri" exactly when there is no ':'; otherwise the address has no ':' |
| ClientProxy.SplitThenJoin | sdk/grpc/ClientProxy.cpp:105-113 | splitting a valid URI and joining the parts gives back the URI (also lines 87) |
| ClientProxy.JoinThenSplit | sdk/grpc/ClientProxy.cpp:109-113 | joining an address without ':' and a port, then splitting, gives back both parts (also lines 87) |
| ClientProxy.FindFirstAt | sdk/grpc/ClientProxy.cpp:28 | the first occurrence is the one with no earlier copy |
| ClientProxy.Proxy.constructor | sdk/grpc/ClientProxy.cpp:85-102 | a new proxy is not connected and has no channel |
| ClientProxy.Proxy.ConnectWithParam | sdk/grpc/ClientProxy.cpp:85-102 | connects to the joined URI; connected and OK exactly when the channel was created, otherwise NotConnected "Connect failed!" |
| ClientProxy.Proxy.ConnectWithUri | sdk/grpc/ClientProxy.cpp:104-116 | an invalid URI returns InvalidArgument and changes nothing; a valid one connects to exactly that URI, as ConnectWithParam does |
| ClientProxy.GetConfigCommand | sdk/grpc/ClientProxy.cpp:172-179 | "get_config " followed by the node name |
| ClientProxy.GetConfigCommandInjective | sdk/grpc/ClientProxy.cpp:172-179 | different node names give different commands |
| ClientProxy.SetConfigCommandRoundTrip | sdk/grpc/ClientProxy.cpp:181-189 | "set_config " + node + " " + value splits back into node and value when the node name has no space |
| ClientProxy.TrimmedLength | sdk/grpc/ClientProxy.cpp:72-75 | the row length after trimming: everything after it is -1 and the last kept id is not -1 |
| ClientProxy.ChunkFits | sdk/grpc/ClientProxy.cpp:62-70 | with topk = total / nq the row i chunk ends inside the reply |
| ClientProxy.Rows | sdk/grpc/ClientProxy.cpp:60-83 | one row per query |
| ClientProxy.RowKeeps | sdk/grpc/ClientProxy.cpp:64-79 | a row is a prefix of its chunk, ids and distances of the same length, and only trailing -1 ids are cut, so interior -1 ids are kept; a chunk not ending in -1 is kept whole |
| ClientProxy.RowShape | sdk/grpc/ClientProxy.cpp:62-81 | row i is taken from [topk * i, topk * (i + 1)) of the reply with topk = total / nq, trimmed as in RowKeeps |
| ClientProxy.RowOfTrimmedChunk | sdk/grpc/ClientProxy.cpp:64-79 | the row is the chunk cut to its trimmed length, for ids and distances alike |
| ClientProxy.TrimRow | sdk/grpc/ClientProxy.cpp:72-79 | the while loop cuts ids and distances to the trimmed length |
| ClientProxy.ConstructTopkResult | sdk/grpc/ClientProxy.cpp:60-83 | appends exactly the rows of the reply, in query order |
| ClientProxy.SearchReply | sdk/grpc/ClientProxy.cpp:344-372 | returns the server's status; with row_num 0 it converts nothing and so never divides by zero, otherwise it appends the rows |
| ClientProxy.Flush | sdk/grpc/ClientProxy.cpp:577-591 | an empty list makes one Flush("") call and returns its status; otherwise one call per name, in order, and OK whatever they return |
| ClientProxy.LastParamsIndex | sdk/grpc/ClientProxy.cpp:496-501 | the last pair whose key is "params", or None when there is none |
| ClientProxy.ExtraParams | sdk/grpc/ClientProxy.cpp:486-507 | the loop leaves extra_params as it was without a "params" pair, otherwise sets it to the value of the last one |
| ConfigStore.NatToString | tests/milvus_python_test/test_config.py:929-934 | str(n) is a non-empty run of decimal digits |
| ConfigStore.DigitsOfNatToString | tests/milvus_python_test/test_config.py:929-934 | reading back str(n) gives n |
| ConfigStore.Lower | tests/milvus_python_test/test_config.py:673-679 | lower-cases each character and keeps the length |
| ConfigStore.UnitFactor | tests/milvus_python_test/test_config.py:1528-1533 | a unit is known exactly when it is KB, MB or GB |
| ConfigStore.Validate | tests/milvus_python_test/test_config.py:929-945 | set_config fails on an unknown category, then on an unknown key, then on a value its type refuses, and passes exactly when the key is known and the value accepted; a cache memory size is judged together with the size the other memory key holds (also lines 54-58, 126-129, 274-286) |
| ConfigStore.MemoryKeysAreMemoryFields | tests/milvus_python_test/test_config.py:274-286 | cache_size and insert_buffer_size of the cache category are exactly the keys of the memory type |
| ConfigStore.MemorySumRule | tests/milvus_python_test/test_config.py:274-286 | a size for either memory key is accepted exactly when it and the other key's stored size together do not exceed total memory |
| ConfigStore.SetKeepsMemoryWithinHost | tests/milvus_python_test/test_config.py:274-286 | after an accepted set of a memory key, the two stored cache sizes together fit in total memory |
| ConfigStore.SumOverMemoryRejected | tests/milvus_python_test/test_config.py:274-286 | with a 1 GB insert buffer on an 8 GB host, an 8 GB cache is refused though it parses, and a 7 GB cache is accepted |
| ConfigStore.Lookup | tests/milvus_python_test/test_config.py:54-58 | get_config succeeds exactly on known keys, returns a well-formed value, and fails on unknown categories and keys (also lines 126-129, 197-201) |
| ConfigStore.Apply | tests/milvus_python_test/test_config.py:197-201 | a set keeps the store consistent and a refused set changes nothing |
| ConfigStore.SetThenGetEchoes | tests/milvus_python_test/test_config.py:1156-1162 | after an accepted set, get returns exactly the string that was set (also lines 197-201, 294-298, 1528-1533, 1144-1148) |
| ConfigStore.SetLeavesOtherKeys | tests/milvus_python_test/test_config.py:197-201 | a set changes no other key |
| ConfigStore.ApplyTimes | tests/milvus_python_test/test_config.py:211-222 | repeated sets keep the store consistent |
| ConfigStore.SetIsIdempotent | tests/milvus_python_test/test_config.py:211-222 | setting a value twice is setting it once |
| ConfigStore.RepeatedSetIsOneSet | tests/milvus_python_test/test_config.py:211-222 | setting the same value any number of times is one set (also lines 260-271) |
| ConfigStore.ApplyTimesLeavesOtherKeys | tests/milvus_python_test/test_config.py:260-271 | repeated sets of one key keep every other key's value |
| ConfigStore.LaterSetWins | tests/milvus_python_test/test_config.py:260-271 | a later accepted value is what get returns, however often an earlier one was set |
| ConfigStore.ConfigStore.constructor | tests/milvus_python_test/test_config.py:36-46 | the store starts with the server's consistent defaults |
| ConfigStore.ConfigStore.Get | tests/milvus_python_test/test_config.py:36-46 | get_config is Lookup on the current values (also lines 54-58) |
| ConfigStore.ConfigStore.Set | tests/milvus_python_test/test_config.py:190-201 | set_config answers Validate's verdict; an accepted value replaces the key's value, a refused one leaves the store as it was (also lines 211-222) |
| ConfigStore.PortOfNumber | tests/milvus_python_test/test_config.py:939-945 | a rendered number is a port exactly when it is strictly between 1024 and 65535 |
| ConfigStore.PortLiteral | tests/milvus_python_test/test_config.py:929-945 | a literal is a port exactly when the number it spells is between the bounds |
| ConfigStore.AcceptedNetworkPorts | tests/milvus_python_test/test_config.py:929-934 | 1025, 65534 and 12345 are accepted ports (also lines 953-958) |
| ConfigStore.AcceptedDefaultPorts | tests/milvus_python_test/test_config.py:929-934 | "19530" and 19121 are accepted ports (also lines 953-958) |
| ConfigStore.AcceptedMetricPort | tests/milvus_python_test/test_config.py:1300-1305 | "9091" is an accepted port |
| ConfigStore.RejectedPorts | tests/milvus_python_test/test_config.py:942-945 | 1024, 65535, "0" and "True" are refused (also lines 966-968, 1313-1315) |
| ConfigStore.RejectedLargePorts | tests/milvus_python_test/test_config.py:942-945 | "100000" and "1000000" are refused (also lines 966-968) |
| ConfigStore.TrailingWhitespaceRejected | tests/milvus_python_test/test_config.py:406-411 | a trailing space, newline or tab fails the digit, port and device rules ("19530 ", "1\n", "1000\t") (also lines 718-721, 942-945) |
| ConfigStore.NegativeRejected | tests/milvus_python_test/test_config.py:660-668 | a leading minus fails every numeric rule and the boolean rule (-1, -2, "-gpu0") (also lines 406-411, 761-763, 1170-1172) |
| ConfigStore.BoolTokenIgnoresCase | tests/milvus_python_test/test_config.py:673-679 | boolean tokens are read regardless of case (also lines 1274-1279) |
| ConfigStore.BoolVectors | tests/milvus_python_test/test_config.py:660-679 | every token spelling the tests set is accepted, and 100 is refused (also lines 1274-1279, 1502-1520) |
| ConfigStore.DeviceVectors | tests/milvus_python_test/test_config.py:789-805 | "gpu0" is accepted on a host with a gpu; "gpu10000" is refused on hosts with at most 10000 gpus; "10", "gpu-1", the lists and "gpu 0" never parse (also lines 747-750, 761-763) |
| ConfigStore.IntVectors | tests/milvus_python_test/test_config.py:1156-1162 | 2, 1 and 2000 are integers; "1.5", "invalid", "1+2", "1000.0" and 1000.35 are not (also lines 406-411, 1170-1172) |
| ConfigStore.SizeVectors | tests/milvus_python_test/test_config.py:1528-1533 | the wal buffer sizes set in the tests (64MB to 4096MB) are sizes |
| ConfigStore.OversizedMemoryRejected | tests/milvus_python_test/test_config.py:279-286 | (total memory in GB + 1)GB is refused for cache_size and insert_buffer_size, whatever the other key holds |
| ConfigStore.GigabytesAccepted | tests/milvus_python_test/test_config.py:190-201 | n GB fits a memory key exactly when n GB plus what the other memory key holds does not exceed total memory (also lines 279-286) |
| ConfigStore.TimezoneVectors | tests/milvus_python_test/test_config.py:1038-1041 | "utc+8", "UTC++8" and "GMT+8" are refused, while "UTC+8" is accepted |
| ConfigStore.StoredTimezoneIsUtc | tests/milvus_python_test/test_config.py:1023-1025 | the stored timezone always reads back as "UTC" followed by an offset |
| ConfigStore.UnknownCategories | tests/milvus_python_test/test_config.py:54-58 | misspelt category names fail get and set with an unknown-category error (also lines 170-174, 321-324, 444-447, 630-634) |
| ConfigStore.UnknownCacheKeys | tests/milvus_python_test/test_config.py:67-70 | misspelt cache keys fail get and set (also lines 104-106, 126-129) |
| ConfigStore.UnknownGpuKeys | tests/milvus_python_test/test_config.py:335-337 | misspelt gpu keys fail get and set (also lines 459-461, 514-516) |
| ConfigStore.UnknownGpuResourceKeys | tests/milvus_python_test/test_config.py:406-411 | the old gpu resource key names and use_blas_threshold fail get and set (also lines 555-557, 597-599) |
| ConfigStore.UnknownNetworkKeys | tests/milvus_python_test/test_config.py:849-852 | misspelt network keys and "child_key" fail get and set (also lines 827-829, 871-874, 907-908) |
| ConfigStore.UnknownGeneralKeys | tests/milvus_python_test/test_config.py:989-991 | misspelt general keys and "child_key" fail get and set (also lines 1011-1013, 1050-1051) |
| ConfigStore.UnknownStorageKeys | tests/milvus_python_test/test_config.py:1085-1087 | misspelt storage keys and "child_key" fail get and set (also lines 1107-1109, 1134-1135) |
| ConfigStore.UnknownMetricKeys | tests/milvus_python_test/test_config.py:1193-1195 | misspelt metric keys and "child_key" fail get and set (also lines 1215-1217, 1237-1239, 1265-1266) |
| ConfigStore.UnknownWalKeys | tests/milvus_python_test/test_config.py:1399-1401 | misspelt wal keys and "child_key" fail get and set (also lines 1443-1445, 1465-1467, 1493-1494) |

## Left out

- MergeLayered.SortBySizeDesc: `std::sort` leaves the order of equal-sized files unspecified, and the model fixes one (a stable insertion sort). Every lemma holds whatever order ties take, except where it names positions in the sorted list.
- MergeLayered.RegroupFiles: the size sum `file_size_ + biggest_size` is a `size_t` and could wrap around. The model adds sizes without wrap-around, which matters only for sizes near 2^64. The comparison against the signed `index_file_size_` is modelled by converting it to unsigned.
- MergeLayered.RegroupFiles: the clock (`GetMicroSecTimeStamp`) and `meta::US_PS` are the parameters `now` and `usPs`. The `std::map` of layers is a sequence of eight layers in ascending bound order.
- MergeLayered.FilesHolder: only the held list and the order of `UnmarkFile` calls are modelled. The holder's own bookkeeping is not part of this model.
- The single-huge-file case is modelled as the code is written: the file is neither grouped nor unmarked (`kept`), because `huge_files` was swapped away before the unmark loop.
- VectorSource.VectorSource.Add: the segment writer and SafeIDGenerator, and the byte copies they perform, are replaced by the results passed in and the write request returned. The `size_t` offset arithmetic is not modelled as wrapping. Caller ids are required to cover the batch, because the code would read past them otherwise.
- FaissFlatPass: `PickResource` and the resource manager lookups are the `pick` parameter. `GPU_QUERY_MAX_NPROBE` is the `maxNprobe` parameter. The configuration reads are the `Option` parameters of Init. The gpu-enable listener is the constructor's flag. The numeric value of FAISS_IDMAP is a placeholder; only equality with it matters.
- VecIndex: the IndexEnum tag strings are placeholders. Only their distinctness matters.
- VecIndex: the bodies of Train and AddWithoutIds on non-NSG indexes are not shown; their results are parameters. IndexNSG.h declares the NSG BuildAll override, but its body is not part of this model; RunBuildAll takes its outcome as a parameter. The faiss index's Count() and Dim() are parameters of IndexSize.
- VecIndex: serialisation, search, Seal/CopyCpuToGpu and the other virtual operations declared in VecIndex.h are not modelled.
- ClientProxy: all RPC forwarding and the gRPC transport are left out: what the server answers is a parameter, and exceptions from the network stack are not modelled. A negative `row_num` is not modelled (`rowNum` is a nat).
- ClientProxy: distances and vector data are opaque elements; the memcpy byte copies are slices.
- ConfigStore: the server's Config class, its change listeners and the host memory probe are not part of this model. The rules are built from what the tests assert and go no further: ports strictly between 1024 and 65535, boolean tokens in any case, single `gpuN` devices below the host's gpu count, digit-only integers, sizes with a KB/MB/GB unit, where the two cache memory sizes together must not exceed total memory (a sum equal to it passes; no test sets sizes at that boundary), and timezones `UTC`, a sign and digits. `gen_valid_timezones` is never used by a set test, so no timezone range is modelled.
- ConfigStore: `use_blas_threshold` is never shown being read successfully, so it is not in the gpu key space and its rejections follow from the unknown-key rule. The values a running server starts with are the constructor's parameter.
- ConfigStore: Python's `str(value)` for ints is `NatToString`; for floats such as 1000.35 the literal string is used.

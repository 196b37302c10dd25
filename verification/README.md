# KV-cache data path of LMCache-HCU

This project models, in Dafny, the code that decides which tokens, blocks and bytes move
between vLLM's paged memory, the cache and disk, and proves what that code keeps over every
input and every run. `dafny verify dfyconfig.toml` checks all of it. Paths below are relative
to the repository.

| file | models |
|---|---|
| `TensorIndex`, `BlockFirstLayout`, `CrossLayerPages`, `PagedSlots` | the block-first disk layout, its index arithmetic, and its agreement with the pages of the cross-layer GPU tensor |
| `Json`, `BlockFirstHeader`, `HeaderFormat` | the 4 KiB header: canonical JSON printer and parser on code points, UTF-8, validation; its bytes and field names |
| `BlockTable`, `RequestTracker`, `SchedulerRun`, `SchedulerAdapter`, `ConnectorRun` | the scheduler-side shadow of a request, the block-table guard, what is emitted and saved, whole scheduling steps, and runs of one request and of the whole connector |
| `Streams`, `ComputeStreams`, `Chunks`, `Masks`, `LoadPipeline`, `StorePipeline` | device streams as queues of which some prefix has run, store streams that wait for the layers' compute, the layerwise load and store generators |
| `BlendBuffer`, `BlendSave`, `BlendRoundTrip` | the blending connector: ping-pong buffers, saving, and loading what was saved |
| `TokenMerge`, `MergedLocations`, `FailedBlocks` | merging directly loaded with fetched chunks, reference counts, and the blocks reported as lost |
| `ChunkKeys`, `Lookup`, `LayerwiseHits` | prefix-chained keys, the storage manager's pass over its backends, `lookup`, and what of a layerwise lookup can be retrieved |
| `HyFile` | driver, buffer registry and allocators under failing foreign calls |
| `Results` | `Result` and `Option` |

Code that changes objects is modelled by classes whose methods change the same fields, each
proved against a specification function; the lemmas are about those functions. Generators are
explicit program counters: `After(.., taken, ..)` describes a generator after its first
`taken` nexts, and each `Next` is proved to move from `taken` to `taken + 1`. A raised Python
exception is an error result that stops the caller as the exception would.

A stream is a sequence of operations; a wait or synchronisation records how much of it the
waiter has seen finished. Every statement about memory holds for each prefix that may have run
(`n` between what was waited for and the whole queue), and `Streams.InterleavingsAgree` covers
two streams running at once in any order. A layer's compute writes the layer's pages; the store
streams run beside it, and their waits pass only once that layer is computed. A token's key and value vectors in one layer are one
number each; re-encoding positions is an arbitrary function.

## Where the code does less than it says

Each of these is a property one would expect from the documentation or comments. The code is
modelled as it is; the member named gives the exact condition under which the property holds.

- Load, `TokenMerge.FailureDropsNeighbour`: `end < last_failed_block_start` also drops the
  fetched chunk that ends exactly where the failure starts. Its tokens stay marked and its
  object is never released. `MergedLocations.MarkedIsLoadedExact` gives the exact condition for
  chunks split over several locations, and `FailedBlocks.DroppedTokenUnreported` carries it on:
  those tokens are neither loaded nor reported to vLLM.
- Load, `TokenMerge.OnlyLastFailureCuts`: of several failed fetches the latest start is kept, so
  chunks after an earlier failure stay loaded and the mask can have a hole.
- Load, `LoadPipeline.LayerwiseLoader.WaitForLayerLoad`: a request that loads but hits nothing
  reads an unassigned `mem_obj_consumer` on the last layer. If the *last* request that loads is
  the one without hits, no layer was waited for either (`LoadPipeline.UnwaitedLayerMisses`).
- Load, `LayerwiseHits.CountedIsRetrievableExact`: the layerwise lookup asks for one location per
  chunk, the layerwise retrieval asserts one location for all of a request's chunks. What was
  counted can be retrieved exactly when its chunks share a location; otherwise `start_load_kv`
  raises (`CountedInTwoLocations`: one chunk in each of two backends).
- Store, `StorePipeline.LayerwiseSaver.SaveAllLayers`: only the first storing request
  synchronises. If it has no new chunk, `UnsynchronisedPuts` shows a put that runs before its
  copies. In freeze mode each generator yields once too rarely and `wait_for_save`
  raises `StopIteration`.
- Store, `StorePipeline.FitsExact`: `start - offset` indexes a compact buffer. A gap between new
  chunks is at least a whole chunk wide, so the last slice comes out empty and `copy_` raises.
- Report, `FailedBlocks.NoticedExact` and `EveryChunkFailureNoticed`: the count-based test misses
  as many lost tokens as vLLM had cached beyond the last chunk boundary. Failures at chunk starts
  are all noticed exactly when `vllm % chunk <= (cached - 1) % chunk`; an aligned vLLM prefix is
  one way to satisfy it, not the only one.
- Lookup, `Lookup.FoundExact`: `batched_contains` visits each backend once, so it finds the
  longest held prefix only if the keys can be read off the backends in ascending order
  (`InterleavedExample`: three chunks held, two found).
- Scheduler, `SchedulerAdapter.ResumeAssertionExact`: the assertion for resumed requests fails
  after a full hit or a hit below the retrieval minimum.
- Scheduler, `SchedulerRun.FrontierExact`: a hit below the retrieval minimum under chunked
  prefill starts the save frontier beyond the tracked tokens (`SchedulerAdapter.FrontierBeyondTokens`).
- Scheduler, `BlockTable.DeltaExact`: a nested list arriving at an empty table is stored nested.
  Both are hypothetical: vLLM sends flat lists or one-group tuples and never an empty table.
- Header, `BlockFirstHeader.HeaderRoundTrip`: a model name holding a high surrogate followed by
  a low one is read back as one character. Such a name is hypothetical: a decoded UTF-8 file or
  argument holds no high surrogate.
- Blending, `BlendBuffer.RaceOutcomes`: nothing orders the zeroing of the position tensor against
  the load stream's writes to it, so any number of leading chunks may be re-encoded as if stored
  at position 0. `PagesExact` says when paged memory is right nevertheless: exactly when, for
  every chunk token, re-encoding from position 0 and from the stored position agree on every
  key. `BlendRoundTrip.RoundTripExact` says the same of saving and loading again, and `RaceExample` is a
  two-token request that ends up wrong.

## Model

| member | source | states |
|---|---|---|
| TensorIndex.UnravelOfRavel | lmcache_hcu/v1/storage_backend/block_first_disk.py:80-128 | coordinates survive a trip through the flat offset, for every rank and shape |
| TensorIndex.RavelOfUnravel | lmcache_hcu/v1/storage_backend/block_first_disk.py:80-128 | flat offsets survive a trip through coordinates |
| TensorIndex.ViewSplitsAxis | lmcache_hcu/v1/storage_backend/block_first_disk.py:80-128 | `view` that splits an axis of extent m*n into (m, n) keeps every element's offset |
| BlockFirstLayout.AlignUp | lmcache_hcu/v1/storage_backend/block_first_disk.py:30-36 | succeeds iff size >= 0 and alignment > 0; the result is the multiple of the alignment in [size, size + alignment) |
| BlockFirstLayout.BlockFirstShape | lmcache_hcu/v1/storage_backend/block_first_disk.py:53-77 | accepts exactly the shapes of whole chunks, and then the extents rebuild the logical shape |
| BlockFirstLayout.OffsetsAreInverse | lmcache_hcu/v1/storage_backend/block_first_disk.py:80-128 | the two flat index maps are mutually inverse on [0, 2*NL*T*D), so each is a bijection |
| BlockFirstLayout.BlockFirstElement | lmcache_hcu/v1/storage_backend/block_first_disk.py:80-100 | physical[b,l,k,s,c] = logical[k,l,b*BS+s,c] in flat buffers of every legal size |
| BlockFirstLayout.ConversionsAreInverse | lmcache_hcu/v1/storage_backend/block_first_disk.py:80-128 | decoding an encoded buffer, and encoding a decoded one, gives it back |
| BlockFirstLayout.LogicalToBlockFirst | lmcache_hcu/v1/storage_backend/block_first_disk.py:80-100 | exactly when it raises; a rejected `out` is untouched; otherwise `out` or a fresh tensor holds the block-first contents |
| BlockFirstLayout.BlockFirstToLogical | lmcache_hcu/v1/storage_backend/block_first_disk.py:103-128 | the same for the way back |
| PagedSlots.SlotsDistinct | lmcache_hcu/integration/vllm/vllm_v1_adapter.py:398-405 | distinct blocks give every token its own slot |
| PagedSlots.SlotOf | lmcache_hcu/integration/vllm/vllm_v1_adapter.py:398-405 | dividing a slot by the block size gives back the token's block, the remainder its offset |
| CrossLayerPages.KernelAddressIsTensorAddress | lmcache_hcu/v1/gpu_connector/gpu_connectors.py:313-381 | the layer pointer table plus page stride reaches exactly the element of the 6-D tensor |
| CrossLayerPages.KernelAddressesInjective | lmcache_hcu/v1/gpu_connector/gpu_connectors.py:313-381 | addresses stay inside the allocation and different elements never overlap |
| CrossLayerPages.PageElement | lmcache_hcu/v1/gpu_connector/gpu_connectors.py:313-381 | an element of a page sits at the inner offset it has in a payload block |
| CrossLayerPages.DirectLoadIsDecodeAndScatter | lmcache_hcu/v1/storage_backend/block_first_disk.py:103-128 | copying payload block b to page `ids[b]` leaves the same paged memory as decoding to logical form and scattering by the slot mapping |
| CrossLayerPages.DirectLoad | lmcache_hcu/v1/storage_backend/block_first_disk.py:53-77 | one contiguous transfer per block; with distinct ids, page `ids[b]` is payload block b byte for byte, and every other page is as it was |
| CrossLayerPages.TokenLanded | lmcache_hcu/v1/storage_backend/block_first_disk.py:103-128 | with distinct ids, element (l, k, s, h, e) of page `ids[b]` of the cross-layer tensor is the decoded tensor's element for layer l, K or V, token b*BS+s and channel h*HS+e |
| Json.JoinedIdentity | lmcache_hcu/v1/storage_backend/block_first_disk.py:345-383 | a string is read back unchanged iff it has no high surrogate followed by a low one |
| Json.StringRoundTrip | lmcache_hcu/v1/storage_backend/block_first_disk.py:345-383 | parsing an escaped string body, whatever follows it, gives the joined string and the rest (section 7 of RFC 8259) |
| Json.ShortEscapes | lmcache_hcu/v1/storage_backend/block_first_disk.py:345-383 | every two-character escape of section 7 of RFC 8259 is read as its character, and all but the slash are written so |
| Json.ControlRefused | lmcache_hcu/v1/storage_backend/block_first_disk.py:362-383 | a string that is accepted holds no raw control character |
| Json.NumberRoundTrip | lmcache_hcu/v1/storage_backend/block_first_disk.py:345-383 | a printed integer followed by anything that cannot extend a number is parsed back |
| Json.PrintParses | lmcache_hcu/v1/storage_backend/block_first_disk.py:345-383 | every printed value is parsed back, whatever follows it |
| Json.DumpsLoads | lmcache_hcu/v1/storage_backend/block_first_disk.py:345-383 | `loads(dumps(v))` is v with its strings joined |
| Json.TrailingRefused | lmcache_hcu/v1/storage_backend/block_first_disk.py:362-383 | a printed value is read back between white space, and refused iff anything else follows it |
| Json.PrintInjective | lmcache_hcu/v1/storage_backend/block_first_disk.py:131-157 | equal texts come from values that read back equal |
| BlockFirstHeader.PrintIsAscii | lmcache_hcu/v1/storage_backend/block_first_disk.py:345-359 | JSON text is ASCII whatever the strings hold, so encoding cannot fail |
| BlockFirstHeader.Create | lmcache_hcu/v1/storage_backend/block_first_disk.py:183-228 | succeeds iff shape and engine are legal; the result validates, its payload is numel*elem bytes, its I/O size the next multiple of 4096 |
| BlockFirstHeader.SignatureDetermines | lmcache_hcu/v1/storage_backend/block_first_disk.py:131-157 | with a collision-free digest equal signatures mean equal coordinate-affecting fields (model names up to joined surrogates) |
| BlockFirstHeader.RuntimeAcceptsExactly | lmcache_hcu/v1/storage_backend/block_first_disk.py:294-329 | a valid descriptor is accepted at run time iff shape, dtype, block size and every engine field match |
| BlockFirstHeader.SameNameSameSignature | lmcache_hcu/v1/storage_backend/block_first_disk.py:131-157 | names that differ only in splitting a surrogate pair have the same signature |
| BlockFirstHeader.Pack | lmcache_hcu/v1/storage_backend/block_first_disk.py:345-359 | succeeds iff the descriptor validates and its text fits, and always yields 4096 bytes |
| BlockFirstHeader.Unpack | lmcache_hcu/v1/storage_backend/block_first_disk.py:362-383 | only returns descriptors that validate, and only from buffers with the magic |
| BlockFirstHeader.LittleRoundTrip | lmcache_hcu/v1/storage_backend/block_first_disk.py:345-383 | 32-bit little-endian fields are read back, whatever follows |
| BlockFirstHeader.HeaderReadsBack | lmcache_hcu/v1/storage_backend/block_first_disk.py:345-383 | unpacking a packed header plus any suffix gives the descriptor with its model name joined |
| BlockFirstHeader.HeaderRoundTrip | lmcache_hcu/v1/storage_backend/block_first_disk.py:345-383 | `unpack(pack(m) + suffix) == m` iff the model name has no split surrogate pair |
| HeaderFormat.PackFrames | lmcache_hcu/v1/storage_backend/block_first_disk.py:345-359 | bytes of a packed header: "LMCBFV1" and a zero byte, body length and CRC as little-endian words, the JSON text, zeros up to 4096 |
| HeaderFormat.UnpackChecksFrame | lmcache_hcu/v1/storage_backend/block_first_disk.py:362-383 | what is unpacked has that magic, length and checksum |
| HeaderFormat.CorruptionNoticed | lmcache_hcu/v1/storage_backend/block_first_disk.py:362-383 | a changed body of the same length is refused whenever its checksum differs |
| HeaderFormat.PayloadNames | lmcache_hcu/v1/storage_backend/block_first_disk.py:345-359 | each field about the payload is written under its own name |
| HeaderFormat.DeploymentNames | lmcache_hcu/v1/storage_backend/block_first_disk.py:345-359 | so is each field about format and deployment |
| HeaderFormat.SignatureNames | lmcache_hcu/v1/storage_backend/block_first_disk.py:131-157 | so is each field the signature covers |
| HeaderFormat.KeysAscend | lmcache_hcu/v1/storage_backend/block_first_disk.py:345-359 | keys are written in ascending order |
| HeaderFormat.CanonicalExample | lmcache_hcu/v1/storage_backend/block_first_disk.py:345-359 | a nested value printed without spaces and with lower-case escapes, character by character |
| HeaderFormat.CreateExact | lmcache_hcu/v1/storage_backend/block_first_disk.py:183-228 | every field of a created descriptor |
| HeaderFormat.ValidIsCreated | lmcache_hcu/v1/storage_backend/block_first_disk.py:235-292 | a descriptor validates iff it is the one that `create` computes for its own shape, dtype, block size and deployment |
| HeaderFormat.MappingNames | lmcache_hcu/v1/storage_backend/block_first_disk.py:331-342 | a mapping is accepted only if its names are exactly the 17 fields |
| BlockTable.DeltaExact | lmcache_hcu/__init__.py:238-304 | a guarded delta update is exact iff it cannot be mistaken for a complete table |
| BlockTable.FullExact | lmcache_hcu/__init__.py:248-304 | a complete table that extends the old one always replaces it |
| BlockTable.ShadowStep | lmcache_hcu/__init__.py:254-304 | with distinct ids, any delta, full, empty or None update keeps the shadow equal to the scheduler's table |
| BlockTable.ResumeExact | lmcache_hcu/integration/vllm/vllm_v1_adapter.py:224-265 | after preemption the announced table replaces whatever the shadow held |
| BlockTable.FirstGroupOnly | lmcache_hcu/__init__.py:238-304 | of several KV cache groups only the first is looked at, as a delta, as a complete table and after preemption |
| BlockTable.NestedListCorruptsEmptyTable | lmcache_hcu/__init__.py:238-251 | a concrete nested list that the guard stores with its nesting |
| RequestTracker.FirstTableExact | lmcache_hcu/integration/vllm/vllm_v1_adapter.py:146-204 | a new request gets the flat list, or the first group of a nested one |
| RequestTracker.RequestTracker.FromNewRequest | lmcache_hcu/integration/vllm/vllm_v1_adapter.py:146-204 | state of a new tracker: computed prompt prefix, first block list, frontier at the hit length |
| RequestTracker.RequestTracker.UpdateUnguarded | lmcache_hcu/integration/vllm/vllm_v1_adapter.py:206-271 | the unguarded update: same as the guarded one except that ids are always appended |
| RequestTracker.RequestTracker.Update | lmcache_hcu/__init__.py:264-304 | the guarded update, on the whole tracker state |
| RequestTracker.RequestTracker.RollBack | lmcache_hcu/integration/vllm/vllm_v1_adapter.py:1702-1727 | truncation of tokens and frontier when vLLM reports fewer computed tokens |
| RequestTracker.RequestTracker.BuildMeta | lmcache_hcu/integration/vllm/vllm_v1_adapter.py:296-427 | metadata emitted and new frontier, without disaggregation |
| SchedulerRun.WaitForSave | lmcache_hcu/integration/vllm/vllm_v1_adapter.py:1186-1299 | the store calls issued for a step's metadata, in order, and each save spec afterwards: on the last pipeline rank it counts what was stored |
| SchedulerRun.StoredOnce | lmcache_hcu/integration/vllm/vllm_v1_adapter.py:1270-1299 | on the last rank a request stored whole would not be stored again; other ranks leave the save spec alone |
| SchedulerRun.AllStoresJoin | lmcache_hcu/integration/vllm/vllm_v1_adapter.py:1207-1299 | each request's store is issued, in order |
| SchedulerRun.EmissionExact | lmcache_hcu/integration/vllm/vllm_v1_adapter.py:318-427 | metadata is emitted iff a save is due (no skip, decode saving allowed, nothing saved yet or a chunk boundary beyond the frontier inside the tokens) or something is to be loaded; it holds the whole part of the tokens with their slots, the frontier to skip and the load spec; the frontier moves to its end iff the save is due |
| SchedulerRun.NoWholeChunkLeft | lmcache_hcu/integration/vllm/vllm_v1_adapter.py:318-427 | after any step of a request that may save, less than a chunk lies beyond the frontier |
| SchedulerRun.EmissionAdvances | lmcache_hcu/integration/vllm/vllm_v1_adapter.py:318-368 | a save after a non-zero frontier reaches at least the next chunk boundary |
| SchedulerRun.StoreIsWhole | lmcache_hcu/integration/vllm/vllm_v1_adapter.py:1240-1280 | a store covers exactly the tokens from the chunk boundary at or below the frontier to the end of the metadata; the truncation drops none and the mask is aligned Falses then Trues |
| SchedulerRun.LoadIsCovered | lmcache_hcu/integration/vllm/vllm_v1_adapter.py:352-368 | metadata of a request that loads whole chunks holds every token to load |
| SchedulerRun.ReadyRefines | lmcache_hcu/integration/vllm/vllm_v1_adapter.py:1645-1740 | after each allowed step of any kind, before anything is emitted, the tracker equals vLLM's record and everything below its frontier was stored or reported as a hit; the frontier is inside the tokens iff the last lookup's hits are |
| SchedulerRun.RunsKeepInvariant | lmcache_hcu/integration/vllm/vllm_v1_adapter.py:1645-1740 | over every run of new, rescheduled, rolled-back and preempted steps, with any hit counts: tokens are `all_token_ids[:num_computed + num_scheduled]`, the table is the scheduler's, the decode flag says whether a later step scheduled exactly one token, all below the frontier was stored or reported as a hit; the frontier is inside the tokens iff the hits of the last lookup are, counted as 0 once a rollback followed it |
| SchedulerRun.RunsContinue | lmcache_hcu/integration/vllm/vllm_v1_adapter.py:1645-1740 | no reachable state refuses an allowed step |
| SchedulerRun.SaveResumesAtFrontier | lmcache_hcu/integration/vllm/vllm_v1_adapter.py:318-368 | a save of a new, rescheduled or resumed request starts less than a chunk before the frontier left by the lookup or by rollback, everything below that frontier is covered, no gap follows it, and the true tokens are stored under an aligned mask |
| SchedulerRun.RollbackExact | lmcache_hcu/integration/vllm/vllm_v1_adapter.py:1702-1727 | rollback and extension restore the true prefix iff no more tokens are computed than tracked and the table covers what remains |
| SchedulerRun.FrontierExact | lmcache_hcu/integration/vllm/vllm_v1_adapter.py:146-204 | the frontier of a new request lies inside its tokens iff hits <= min(scheduled so far, prompt length) |
| SchedulerAdapter.MatchedCountAgrees | lmcache_hcu/integration/vllm/vllm_v1_adapter.py:1405-1530 | the returned count passes the later assertion iff the request did not move into or out of the fully cached case |
| SchedulerAdapter.MatchedLeavesWork | lmcache_hcu/integration/vllm/vllm_v1_adapter.py:1405-1457 | with at most num_tokens hits a positive count leaves a token to compute |
| SchedulerAdapter.ResumeAssertionExact | lmcache_hcu/integration/vllm/vllm_v1_adapter.py:1681-1700 | when a resumed request passes the assertion of `build_connector_meta` |
| SchedulerAdapter.FrontierBeyondTokens | lmcache_hcu/integration/vllm/vllm_v1_adapter.py:1405-1457 | a concrete lookup below the retrieval minimum whose hits put the frontier beyond the first prefill step |
| SchedulerAdapter.BatchLeavesOthers | lmcache_hcu/integration/vllm/vllm_v1_adapter.py:1645-1753 | trackers and load specs of requests outside the step are untouched |
| SchedulerAdapter.BatchIsPerRequest | lmcache_hcu/integration/vllm/vllm_v1_adapter.py:1645-1753 | in a step that does not raise each tracker takes exactly its own step, whatever else is in the step |
| SchedulerAdapter.BatchRaisesExact | lmcache_hcu/integration/vllm/vllm_v1_adapter.py:1645-1700 | a step raises iff some rescheduled request has no tracker or no vLLM request, or resumes without a spec or with computed tokens that are not the larger of its hits and vLLM's cached tokens |
| SchedulerAdapter.MetasArePerRequest | lmcache_hcu/integration/vllm/vllm_v1_adapter.py:1645-1753 | a step that does not raise emits, in order, what each rescheduled request's own step emits |
| SchedulerAdapter.NewArePerRequest | lmcache_hcu/integration/vllm/vllm_v1_adapter.py:1559-1600 | among distinct new requests each tracker starts and saves as it would alone |
| SchedulerAdapter.NewMetasArePerRequest | lmcache_hcu/integration/vllm/vllm_v1_adapter.py:1559-1600 | a step emits, in order, what each non-mock new request's own tracker emits with its own load spec |
| SchedulerAdapter.NewTakeSpecs | lmcache_hcu/integration/vllm/vllm_v1_adapter.py:1559-1600 | a step takes the load spec and the priority of every non-mock new request and of no other request |
| SchedulerAdapter.CachedTakeSpecs | lmcache_hcu/integration/vllm/vllm_v1_adapter.py:1645-1753 | a step that does not raise takes the load spec of every rescheduled request and of no other |
| SchedulerAdapter.StaysStopped | lmcache_hcu/integration/vllm/vllm_v1_adapter.py:1645-1753 | a step that raised changes nothing further |
| SchedulerAdapter.SchedulerConnector.GetNumNewMatchedTokens | lmcache_hcu/integration/vllm/vllm_v1_adapter.py:1323-1457 | count returned (hits beyond the computed tokens, one less for a full hit, 0 below the retrieval minimum), load spec kept and priority recorded, for mock requests, producers without reuse, first and repeated lookups, pending and finished ones |
| SchedulerAdapter.SchedulerConnector.UpdateStateAfterAlloc | lmcache_hcu/integration/vllm/vllm_v1_adapter.py:1460-1530 | raises iff a positive allocation disagrees with the kept spec; otherwise marks the spec loadable or not |
| SchedulerAdapter.SchedulerConnector.BuildConnectorMeta | lmcache_hcu/integration/vllm/vllm_v1_adapter.py:1533-1753 | the whole step on the connector's dictionaries is the fold of the per-request steps, with the request objects that are left in `_unfinished_requests` |
| ConnectorRun.NewStepAgrees | lmcache_hcu/integration/vllm/vllm_v1_adapter.py:1559-1600 | a new request of a step keeps every tracker in agreement with vLLM's record of its request, counting as stored only what the metadata the step added makes the worker store |
| ConnectorRun.CachedStepAgrees | lmcache_hcu/integration/vllm/vllm_v1_adapter.py:1645-1753 | so does a rescheduled or resumed one, also when it raises |
| ConnectorRun.TrackersAgree | lmcache_hcu/integration/vllm/vllm_v1_adapter.py:1533-1753 | over every sequence of scheduling steps, with any load specs between them and wherever a step raises, every tracker held satisfies the run invariant, with what was stored read off the metadata emitted |
| Streams.PrefixSettles | lmcache_hcu/v1/gpu_connector/gpu_connectors.py:1470-1527 | whatever prefix of a layer-by-layer queue has run, a location written only by one request's one layer holds what those operations left |
| Streams.PrefixAgrees | lmcache_hcu/v1/gpu_connector/gpu_connectors.py:1470-1527 | whatever prefix of a layer-by-layer queue has run, a location written by several requests of one layer that agree on its value holds that value |
| Streams.InterleavingsAgree | lmcache_hcu/v1/gpu_connector/gpu_connectors.py:1116-1164 | two streams with independent operations leave the same memory in every interleaving |
| ComputeStreams.PagesFollow | lmcache_hcu/v1/gpu_connector/gpu_connectors.py:1600-1604 | however compute and a store stream run, a page holds what the layers computed so far have made of it |
| ComputeStreams.StoreSees | lmcache_hcu/v1/gpu_connector/gpu_connectors.py:1600-1633 | store operations whose gathers wait for their layer leave what they would leave if every layer had been computed before |
| Chunks.OffsetExact | lmcache_hcu/v1/gpu_connector/gpu_connectors.py:1464-1500 | `start - starts[0]` is each chunk's place in the compact buffer iff the chunks are contiguous |
| Chunks.SlotAt | lmcache_hcu/v1/gpu_connector/gpu_connectors.py:1447-1454 | the concatenated slot slices hold token k of chunk j at the chunk's place plus k |
| LoadPipeline.LayerwiseLoader.Send | lmcache_hcu/v1/gpu_connector/gpu_connectors.py:1470-1514 | one `send` queues exactly the layer the consumer stands at, after waiting if it synchronises |
| LoadPipeline.LayerwiseLoader.Collect | lmcache_hcu/v1/cache_engine.py:990-1020 | the collecting loop: raises iff the chunks before the first miss are not all in one location; otherwise those are the hits, and the mask marks exactly their tokens |
| LoadPipeline.LayerwiseLoader.Next | lmcache_hcu/v1/cache_engine.py:932-1077 | the two nested generators stay in lockstep: state, yielded value, queued operations and wait of every next, also without hits, with hits in several locations and on an unhealthy engine |
| LoadPipeline.YieldsAgree | lmcache_hcu/v1/cache_engine.py:1040-1077 | the count that the first next yields is the number of Trues in the mask that the last one yields, and both are the tokens of the chunks before the first miss |
| LoadPipeline.LayerwiseLoader.StartLoadKv | lmcache_hcu/integration/vllm/vllm_v1_adapter.py:848-953 | fails iff some loading request meets an unhealthy engine or has hits in several locations, with the error of the first one that does; otherwise every loading request stands two nexts in, exactly the last one synchronises, and layer 0 is queued for all |
| LoadPipeline.LayerwiseLoader.WaitForLayerLoad | lmcache_hcu/integration/vllm/vllm_v1_adapter.py:1057-1081 | fails iff it is the last layer and some loading request has no hit; queues the next layer; the compute stream has waited for all queued before, iff the last request has a hit |
| LoadPipeline.LayerwiseLoader.LoadAllLayers | lmcache_hcu/integration/vllm/vllm_v1_adapter.py:848-953 | a pass is fault-free iff every loading request is healthy, has a hit and has all its hits in one location; then each layer's wait covers that layer of every request, and a token is marked in the returned mask iff a chunk of the request before its first miss holds it |
| LoadPipeline.LayerOpsLoad | lmcache_hcu/v1/gpu_connector/gpu_connectors.py:1470-1514 | one layer's copies and kernel put into every target slot the data of a hit token that has the slot |
| LoadPipeline.PrefixLoads | lmcache_hcu/v1/gpu_connector/gpu_connectors.py:1470-1527 | any prefix that covers a layer leaves that layer loaded for every request, however many later layers have run; tokens may share a slot if their data agree |
| LoadPipeline.SlotsApartAgree | lmcache_hcu/v1/gpu_connector/gpu_connectors.py:1444-1454 | distinct slots are a special case of agreeing ones |
| LoadPipeline.WaitedLayerIsLoaded | lmcache_hcu/v1/gpu_connector/gpu_connectors.py:1470-1527 | after the wait recorded for a layer, the slot of every token of every chunk before a request's first miss holds the retrieved data, whatever was queued before the step |
| LoadPipeline.UnwaitedLayerMisses | lmcache_hcu/integration/vllm/vllm_v1_adapter.py:911-942 | a layer that waited for nothing of the step: some memory and some executed prefix leave a hit token unloaded |
| StorePipeline.ContiguousSaves | lmcache_hcu/v1/gpu_connector/gpu_connectors.py:1613-1624 | with contiguous chunks the position each token is copied from is its own |
| StorePipeline.FitsExact | lmcache_hcu/v1/gpu_connector/gpu_connectors.py:1613-1624 | with the token database's chunks every copy is accepted iff the new chunks are contiguous |
| StorePipeline.GapEmptiesLast | lmcache_hcu/v1/gpu_connector/gpu_connectors.py:1613-1624 | any gap leaves nothing for the last chunk's slice, which is then refused |
| StorePipeline.StoreOpsSave | lmcache_hcu/v1/gpu_connector/gpu_connectors.py:1600-1633 | one layer's kernel and copies fill each memory object from the pages of the request, at the position the slice names |
| StorePipeline.LayerwiseSaver.Offload | lmcache_hcu/v1/gpu_connector/gpu_connectors.py:1600-1633 | raises iff some slice is refused; otherwise queues the layer behind the compute launched so far |
| StorePipeline.LayerwiseSaver.Next | lmcache_hcu/v1/cache_engine.py:598-780 | state, queued operations, puts and synchronisation of every next: layer l is queued by next l+1 and put by next l+2; num_layers+1 nexts, one too many in freeze mode |
| StorePipeline.LayerwiseSaver.SaveKvLayer | lmcache_hcu/integration/vllm/vllm_v1_adapter.py:1084-1183 | raises iff a storing request meets an unhealthy engine or a refused slice; queues exactly the layer just computed, and puts the layer before after the first request's synchronisation |
| StorePipeline.LayerwiseSaver.WaitForSave | lmcache_hcu/integration/vllm/vllm_v1_adapter.py:1186-1205 | pops every generator and puts the last layer; raises iff a storing request was frozen |
| StorePipeline.LayerwiseSaver.SaveAllLayers | lmcache_hcu/integration/vllm/vllm_v1_adapter.py:1084-1205 | a pass is fault-free iff every storing request is healthy, not frozen and its new chunks are contiguous; then the stream holds every layer, each gather behind a wait for its layer's compute, and the log of puts with what each had synchronised is exact |
| StorePipeline.SaveQueueGuarded | lmcache_hcu/v1/gpu_connector/gpu_connectors.py:1600-1604 | every gather of a layer in the store stream comes after a wait for that layer's compute |
| StorePipeline.PutQueueMembers | lmcache_hcu/v1/cache_engine.py:745-762 | there is a put for exactly every storing, healthy, unfrozen request with new chunks and every layer, with the synchronisation of its layer |
| StorePipeline.PutQueueDistinct | lmcache_hcu/v1/cache_engine.py:745-762 | no put happens twice |
| StorePipeline.SynchronisedPutIsComplete | lmcache_hcu/v1/cache_engine.py:745-762 | if the first storing request has a new chunk, every put of contiguous chunks finds for every token what its layer's compute left in the token's own slot, however compute and the stream run, at any later point, and whatever was synchronised before the step |
| StorePipeline.UnsynchronisedPuts | lmcache_hcu/integration/vllm/vllm_v1_adapter.py:1120-1183 | otherwise each put of the step happened with what was synchronised before it, and some memory and some run with the put's layer computed leave the put without its token |
| BlendBuffer.LoadsFill | lmcache_hcu/v1/gpu_connector/gpu_connectors.py:1143-1164 | loading a layer puts every chunk token at its position whatever the buffer held |
| BlendBuffer.DecodeAt | lmcache_hcu/v1/gpu_connector/gpu_connectors.py:1126-1137 | re-encoding then zeroing turns a loaded buffer into the plain result: no stale token survives |
| BlendBuffer.OverlapStep | lmcache_hcu/v1/gpu_connector/gpu_connectors.py:1102-1164 | re-encoding and flushing one buffer while the other is loaded gives, in every interleaving, the flushed layer in paged memory and the next layer loaded |
| BlendBuffer.PagesAreLoaded | lmcache_hcu/v1/gpu_connector/gpu_connectors.py:1060-1137 | with distinct slots the plain loop leaves every chunk token, re-encoded to its own position, in the slot of that position, zero in the slots of gap positions, and every other slot and layer as it was |
| BlendBuffer.RaceOutcomes | lmcache_hcu/v1/gpu_connector/gpu_connectors.py:1098-1164 | whatever the position tensor's memory held, an interleaving of the zeroing with the queued position writes can leave exactly the tensors in which some number of leading chunks reads as position 0 |
| BlendBuffer.RaceExact | lmcache_hcu/v1/gpu_connector/gpu_connectors.py:1098-1137 | for each such outcome: in every memory every token of the plain result is the one asked for, iff re-encoding from position 0 equals re-encoding from the stored position for every token of the early chunks |
| BlendBuffer.PagesExact | lmcache_hcu/v1/gpu_connector/gpu_connectors.py:1098-1164 | with distinct slots, paged memory is the one asked for, token by token, in every memory and every outcome of the race iff that holds for every chunk |
| BlendBuffer.RaceExample | lmcache_hcu/v1/gpu_connector/gpu_connectors.py:1098-1164 | two tokens stored at positions 2 and 3: after a race the second one's key in its own slot is off by 3 |
| BlendBuffer.BufferConnector.QueueLoads | lmcache_hcu/v1/gpu_connector/gpu_connectors.py:1143-1164 | queues a layer into a buffer that is not mapped, and with the first layer the write of every chunk's stored positions |
| BlendBuffer.BufferConnector.SettlingSynchronize | lmcache_hcu/v1/gpu_connector/gpu_connectors.py:1116-1119 | the first synchronisation leaves the position tensor in one of the race's outcomes, later ones leave it alone |
| BlendBuffer.BufferConnector.Begin | lmcache_hcu/v1/gpu_connector/gpu_connectors.py:1067-1101 | finding the gaps waits for what the compute stream still holds of the request before, so both buffers are free |
| BlendBuffer.BufferConnector.Send | lmcache_hcu/v1/gpu_connector/gpu_connectors.py:1102-1167 | one iteration keeps the pipeline invariant: one mapped buffer, the other one filled, layers flushed in order, memory as the plain loop left it |
| BlendBuffer.BufferConnector.Finish | lmcache_hcu/v1/gpu_connector/gpu_connectors.py:1102-1178 | the mapping ends empty and the last layer is flushed |
| BlendBuffer.BufferConnector.LoadAllLayers | lmcache_hcu/v1/gpu_connector/gpu_connectors.py:1026-1178 | one request after another, each layer is flushed once and in order; with distinct slots, the slot of position `start + k` of each chunk holds token k of that chunk, re-encoded from the position the race left, the slots of gap positions hold zero, and no other slot changes; if the chunks are indifferent to position 0 this is what was asked for |
| BlendBuffer.BufferConnector.GetKv | lmcache_hcu/v1/gpu_connector/gpu_connectors.py:1003-1013 | only the layer just swapped in is available, from the buffer not being filled, holding each chunk token at its distance from the first chunk's start and zeros in the gaps |
| BlendSave.SaveStep | lmcache_hcu/v1/gpu_connector/gpu_connectors.py:1258-1290 | one layer's save fills its memory objects from the layer's pages, with or without gaps, and keeps the earlier layers |
| BlendSave.PassStep | lmcache_hcu/v1/gpu_connector/gpu_connectors.py:1258-1290 | however the forward pass and the queued save run beside each other, the objects receive the layer as its compute left it |
| BlendSave.SaveOpsGuarded | lmcache_hcu/v1/gpu_connector/gpu_connectors.py:1258-1268 | the gather of a layer comes after a wait for that layer's compute |
| BlendSave.BufferSaver.Next | lmcache_hcu/v1/gpu_connector/gpu_connectors.py:1258-1296 | each next synchronises the layer queued before and queues the next one: after k nexts k-1 layers are in their objects |
| BlendSave.BufferSaver.SaveAllLayers | lmcache_hcu/v1/gpu_connector/gpu_connectors.py:1183-1296 | after the generator every layer's objects hold their tokens as that layer's compute left them, and the positions recorded are the tokens' own |
| BlendRoundTrip.SaveThenLoad | lmcache_hcu/v1/gpu_connector/gpu_connectors.py:1026-1296 | saving from one set of slots and loading into another brings token k of chunk j from the slot of its position to the slot of its position, with its value, and with its key unless the race made its chunk early: then it is re-encoded once more from position 0 |
| BlendRoundTrip.RoundTripExact | lmcache_hcu/v1/gpu_connector/gpu_connectors.py:1026-1296 | the round trip restores every token in the slot of its own position and zeros the gaps, whatever was saved and however the race ends, iff re-encoding from position 0 to each token's own position changes no key |
| TokenMerge.FallbackAligned | lmcache_hcu/v1/cache_engine.py:1676-1750 | the running fetch index always points at the block's own entry of the fetch list |
| TokenMerge.KeptIsPaired | lmcache_hcu/v1/cache_engine.py:1676-1750 | every kept chunk has the object fetched for its own key and its block's bounds, and every fetched block before the failure is kept |
| TokenMerge.LocationConserves | lmcache_hcu/v1/cache_engine.py:1676-1750 | within a location each fetched object is kept once or released once |
| TokenMerge.MergeConserves | lmcache_hcu/v1/cache_engine.py:1676-1750 | the same over all locations |
| TokenMerge.MaskIsUnion | lmcache_hcu/v1/cache_engine.py:1676-1750 | a token is marked iff it was or some processed block covers it |
| TokenMerge.CompleteWithoutFailure | lmcache_hcu/v1/cache_engine.py:1676-1750 | without a failed fetch the mask is exactly the union of the chunks, every object is kept and nothing dropped |
| TokenMerge.FailureBounds | lmcache_hcu/v1/cache_engine.py:1728-1732 | the recorded start is at least every failing block's start |
| TokenMerge.FailureWitness | lmcache_hcu/v1/cache_engine.py:1728-1732 | and is the start of one of them |
| TokenMerge.FailureCutsOff | lmcache_hcu/v1/cache_engine.py:1742-1750 | after a failure nothing at or after the recorded start stays marked or loaded |
| TokenMerge.OnlyLastFailureCuts | lmcache_hcu/v1/cache_engine.py:1728-1750 | with failures in several locations a fetched chunk survives iff it ends before some failing block, not before all |
| TokenMerge.FailureDropsNeighbour | lmcache_hcu/v1/cache_engine.py:1742-1750 | what one failing location leaves marked and loaded; the two agree iff the block before the failure was direct or absent |
| MergedLocations.MaskOfLocations | lmcache_hcu/v1/cache_engine.py:1676-1736 | with or without failures, before the cut a token is marked iff it was or some location processed a block with it |
| MergedLocations.MarkedIsLoadedExact | lmcache_hcu/v1/cache_engine.py:1742-1750 | for chunks split over any number of locations, every marked token is loaded iff no fetched block ends where the recorded failure starts |
| MergedLocations.ReleasedOnceExact | lmcache_hcu/v1/cache_engine.py:784-928 | each fetched object is released exactly once iff no location fails or every fetched block ends before some failing block |
| MergedLocations.OneFailureMask | lmcache_hcu/v1/cache_engine.py:1742-1750 | when one of several locations fails, what stays marked is exactly what was asked for before the failing block |
| TokenMerge.CacheEngine.ProcessTokensInternal | lmcache_hcu/v1/cache_engine.py:1630-1750 | mask, chunks and releases of the whole merge |
| TokenMerge.CacheEngine.Retrieve | lmcache_hcu/v1/cache_engine.py:784-928 | mask returned, chunks loaded and objects released by `retrieve`; an unhealthy engine returns an empty mask and touches nothing |
| FailedBlocks.LostBlockExact | lmcache_hcu/integration/vllm/vllm_v1_adapter.py:1018-1054 | a block of the table is reported iff an expected token on it is missing |
| FailedBlocks.NoticedExact | lmcache_hcu/integration/vllm/vllm_v1_adapter.py:955-980 | the count test fires iff more tokens are missing than vLLM has cached beyond a chunk boundary |
| FailedBlocks.AlignedLossReported | lmcache_hcu/integration/vllm/vllm_v1_adapter.py:955-1054 | with a chunk-aligned vLLM prefix one missing token makes the shortfall noticed and its block reported |
| FailedBlocks.EveryChunkFailureNoticed | lmcache_hcu/integration/vllm/vllm_v1_adapter.py:906-980 | exactly which hit lengths make every failure at a chunk start noticed |
| FailedBlocks.MergeStaysWithin | lmcache_hcu/v1/cache_engine.py:1676-1750 | the merge marks only tokens that were asked for, whatever fails |
| FailedBlocks.FailedMaskIsMerged | lmcache_hcu/v1/cache_engine.py:1676-1750 | the mask a merge with one failing location returns is the one `EveryChunkFailureNoticed` speaks of |
| FailedBlocks.MergedLossReported | lmcache_hcu/v1/cache_engine.py:1676-1750 | with a chunk-aligned vLLM prefix every token that the merge leaves unmarked is noticed and its block reported, wherever fetches failed |
| FailedBlocks.UnnoticedExample | lmcache_hcu/integration/vllm/vllm_v1_adapter.py:955-980 | a concrete loss of 44 tokens that is not noticed |
| FailedBlocks.DroppedTokenUnreported | lmcache_hcu/v1/cache_engine.py:1742-1750 | tokens of a chunk dropped beside the recorded failure, whichever location held it, are in no loaded chunk and count as missing for no expectation |
| FailedBlocks.LoadReporter.RecordFailedBlocks | lmcache_hcu/integration/vllm/vllm_v1_adapter.py:982-1054 | the set of slot blocks of the missing tokens, empty on mismatched masks |
| FailedBlocks.LoadReporter.CheckRetrieved | lmcache_hcu/integration/vllm/vllm_v1_adapter.py:943-980 | blocks added to the report are exactly those of the table holding a lost token, if the shortfall is noticed |
| ChunkKeys.CoveredSplits | lmcache_hcu/__init__.py:366-384 | prefixes agree iff their chunks agree piece by piece |
| ChunkKeys.SameKeyExact | lmcache_hcu/__init__.py:366-384 | with a collision-free hash two chunks have equal keys iff chunk index, whole token prefix and extra keys agree |
| Lookup.FoundExact | lmcache_hcu/v1/storage_backend/storage_manager.py:987-1026 | the pass over the backends reaches n keys iff they can be read off the backends in ascending order |
| Lookup.OneBackendExact | lmcache_hcu/v1/storage_backend/storage_manager.py:987-1026 | with one backend it finds exactly the longest held prefix |
| Lookup.InterleavedExample | lmcache_hcu/v1/storage_backend/storage_manager.py:987-1026 | three held keys of which two are found |
| Lookup.OneLocationExact | lmcache_hcu/v1/cache_engine.py:1143-1166 | all layers hit in one location iff the first backend that holds the first layer holds them all |
| Lookup.StorageManager.Contains | lmcache_hcu/v1/storage_backend/storage_manager.py:955-985 | the first backend that holds the key |
| Lookup.StorageManager.BatchedContains | lmcache_hcu/v1/storage_backend/storage_manager.py:987-1026 | hits and block mapping: put together, the backends' slices are exactly the leading keys found |
| Lookup.CacheEngine.Lookup | lmcache_hcu/v1/cache_engine.py:1167-1190 | the `end` of the last chunk found, zero when nothing is or the engine is unhealthy |
| Lookup.CacheEngine.LookupLayerwise | lmcache_hcu/v1/cache_engine.py:1143-1166 | the `end` of the last chunk of the longest run of chunks whose layers are all in one location |
| LayerwiseHits.CountedIsRetrievableExact | lmcache_hcu/v1/cache_engine.py:990-1018 | any part of the chunks that the layerwise lookup counts is collected whole iff one backend is the first holder of all those chunks, which then holds every layer of them |
| LayerwiseHits.CountedInTwoLocations | lmcache_hcu/v1/cache_engine.py:1143-1166 | two backends and two chunks that are both counted and whose retrieval raises |
| Lookup.StoredExact | lmcache_hcu/__init__.py:366-384 | a chunk's key was stored iff some stored prompt agrees up to the chunk's end and on the extra keys |
| Lookup.ReuseIsSound | lmcache_hcu/v1/cache_engine.py:1167-1190 | whatever was evicted, every counted chunk was stored for an identical prefix |
| Lookup.LookupExact | lmcache_hcu/v1/cache_engine.py:1167-1190 | with one backend that kept everything, the lookup ends at the longest run of chunks shared with stored prompts |
| Lookup.ReturnedIsSound | lmcache_hcu/v1/cache_engine.py:1167-1190 | whatever was evicted, a lookup that returns t tokens found a stored prompt with the same t leading tokens and extra keys |
| Lookup.ReturnedIsLongest | lmcache_hcu/v1/cache_engine.py:1167-1190 | with one backend that kept everything, no stored prompt agrees with the request on more whole chunks than tokens were returned for |
| HyFile.ConstructKeeps | lmcache_hcu/v1/memory_management.py:115-145 | a failed construction leaves count and registry unchanged, a successful one adds one holder; the invariant is kept |
| HyFile.ConstructExact | lmcache_hcu/v1/memory_management.py:115-145 | exactly when a construction returns normally, and when it leaves the driver open |
| HyFile.CloseKeeps | lmcache_hcu/v1/memory_management.py:153-170 | closing keeps the invariant; a close that raises leaves the allocator counted for a retry; the only counted allocator's close returns normally only with the driver closed |
| HyFile.CloseExact | lmcache_hcu/v1/memory_management.py:153-170 | exactly when a close returns normally, what it deregisters, and that the driver is closed by the last counted allocator's normal close and by nothing else |
| HyFile.CloseRetried | lmcache_hcu/v1/memory_management.py:153-170 | a retry after a failed close ends where an undisturbed close would have |
| HyFile.RunsKeepInvariant | lmcache_hcu/v1/memory_management.py:115-170 | after any sequence of constructions and closes with any failures: registry counts are holders, the active count is the counted allocators, a registered buffer implies an open driver, the driver was never asked to close with a buffer registered |
| HyFile.DriverExact | lmcache_hcu/v1/memory_management.py:115-170 | over all runs the driver is open while an allocator is counted, and with none counted iff the last rollback that tried to close it failed |
| HyFile.AllClosedMeansEmpty | lmcache_hcu/v1/memory_management.py:153-170 | when nothing is counted nothing is registered |
| HyFile.HIPFile.InitDriver | lmcache_hcu/v1/hipfile.py:880-895 | driver state after opening, whichever foreign call fails |
| HyFile.HIPFile.CloseDriver | lmcache_hcu/v1/hipfile.py:1134-1143 | driver state after closing |
| HyFile.BusyCloseRecorded | lmcache_hcu/v1/hipfile.py:1134-1143 | the state records for good that an open driver was asked to close while a buffer was registered, which the invariant excludes |
| HyFile.HIPFile.RegisterGlobalBuffer | lmcache_hcu/v1/hipfile.py:773-817 | registry after a registration, with reuse, size mismatch and failure |
| HyFile.HIPFile.DeregisterGlobalBuffer | lmcache_hcu/v1/hipfile.py:820-855 | registry after a deregistration, with shared buffers and failure |
| HyFile.Lifecycle.Construct | lmcache_hcu/v1/memory_management.py:115-145 | the constructor on shared objects is the step the invariant is proved for |
| HyFile.Lifecycle.Close | lmcache_hcu/v1/memory_management.py:153-170 | `close` on shared objects is the proved step, the invariant holds afterwards, and the last one leaves the driver closed |

## Left out

- Disaggregated prefill, MLA, SGLang, KV events, statistics, logging, configuration loading and `ci/`: side branches or plumbing.
- Native kernels, CUDA/HIP and `libhyfile`: a kernel is a gather or scatter over slots, a stream a queue, a foreign call succeeds or fails.
- The token database's loop, the direct I/O planner and the backends: only their interfaces are used (contiguous chunks with keys, which blocks were loaded directly, which keys a backend holds).
- `lmcache_hcu/v1/hcu_connector.py`: repeats the layerwise connectors.
- Multimodal hashes, the asynchronous loading path and lookup pins.
- Layerwise connectors without the GPU staging buffer.
- In layerwise retrieval the engine checks only the first layer's key and drops its references right after queueing the last layer's copies; layers evicted since the lookup and reuse of those objects are not modelled.
- The native kernel's behaviour when tokens with different data share a slot.
- Device and host allocation failures inside the generators.
- StorePipeline.LayerwiseSaver.SaveAllLayers: starts from a dictionary without generators of the step's requests; generators left behind by a step that raised are not modelled.
- TokenMerge.CacheEngine.Retrieve: passive ranks, the first-rank broadcast and removal after retrieval are not modelled.
- SchedulerRun.RunsKeepInvariant: assumes what vLLM promises (tokens only appended, no more computed than tracked, distinct blocks with a slot for every token); `RollbackExact` shows where these are needed. "Covered" means handed to `store` or reported by a lookup: memory pressure, freeze mode or eviction can still lose it.
- SchedulerAdapter.SchedulerConnector.BuildConnectorMeta: block lists are flat or one-group tuples, and values, so a list that vLLM keeps and mutates after handing it over is not captured; the list form of `scheduled_cached_reqs` of vLLM before 0.9.2 is left out.
- BlockFirstHeader.Unpack: integer fields accept JSON integers only; Python would also accept a float or a boolean that compares equal, and for entries of `logical_shape`, which go through `int(..)`, also a numeric string or a fraction such as 2.9.
- BlockFirstLayout.LogicalToBlockFirst: an `out` that is strided or shares storage with the input is not modelled.
- BlockFirstLayout.BlockFirstToLogical: the same.
- ChunkKeys.SameKeyExact: SHA-256 and the hash function are arbitrary functions, injective where a lemma says so; the chain starts from a value that is no chunk's hash.
- The XDS backend's own calls of `init_driver`, `close_driver` and `register_global_buffer`: `HyFile` covers the allocators only.
- Eviction: `ReuseIsSound` allows any, `LookupExact` assumes none.

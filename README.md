# OSKAR interferometer simulation core, modelled in Dafny

This project models the integer bookkeeping at the heart of the OSKAR
radio-interferometer simulator, with the physics and the floating-point
work left out:

- **The block-pipelined driver** of `oskar_sim_interferometer`, run
  sequentially. Its parts:
  - the observation cut into time blocks;
  - a shared work counter that hands out (sky chunk, time) work units;
  - each device's cache of the current sky chunk;
  - accumulation of the units into a device visibility block, one
    (time, channel) slice per call;
  - the copy into host slot `b % 2`;
  - the output step, which folds slot `!(b % 2)` of every device into
    device 0, adds system noise and writes block `b - 1`.

  The model proves the following. Every unit of a block is simulated
  exactly once, whatever the interleaving of the devices' claims. Every
  device takes its units in increasing order, so it never copies a chunk
  twice. The loop computes block `b` into slot `b % 2` and writes blocks
  `0 .. n-1` in order, each from the slot its compute filled. Block `i`,
  when written, holds exactly the sum over all work units of the block,
  plus the noise of block `i`.
- **Small helpers of the same driver:**
  - `disp_width_`;
  - the choice of Jones matrices joined before correlation;
  - the word-wrapping warning box of `log_warning_box_`.
- **`oskar_mem_random_uniform`**, with the counter-based generator as a
  parameter. Every element below the count receives word `j % 4` of
  generator call `j / 4`. The count is the length, scaled by 2 for complex
  data and by 4 for matrix data, and then narrowed to 32 bits.
- **`oskar_evaluate_array_pattern_hierarchical`**: its validation order,
  the status codes, the realloc rule and the kernel dispatch. The realloc
  test compares `(int)` of the beam length, so a beam of 2^31 elements
  compares as negative and is reallocated smaller (`HugeBeamShrinks`). A
  beam/signal pair of mixed matrix and scalar types runs no kernel and
  leaves the status at 0.
- **`oskar_mem_alloc`**: the status decision and the byte count. The
  count is computed in `size_t`, so a negative element count wraps.
- **`oskar_visibilities_copy`**: the null check, the metadata copy, and
  six array copies with return on the first failure.
- **`oskar_get_error_string`**: the code-to-message table.
- **`oskar_TelescopeLoadElementPattern`**: the spline file map, the two
  `load` overloads, and the cache of element models keyed by the
  concatenated paths.
- **`oskar::SettingsKey`**, from the assertions of its unit tests: a key
  split on a separator, with its tokens, depth and leaf.

Status codes are a datatype (`Ok`, a named OSKAR error, or a positive CUDA
code), because the header that gives their numeric values is not part of
this model. Visibility values are exact integers.

## Model

| member | source | states |
|---|---|---|
| ErrorString.GetErrorString | utility/src/oskar_get_error_string.cpp:33-85 | A positive code gets the CUDA runtime's message. Each of the 13 listed OSKAR codes gets its own message. Every other non-positive code, 0 included, gets "unknown error.". A non-positive code always yields one of 14 fixed strings. |
| ErrorString.MessagesDistinct | utility/src/oskar_get_error_string.cpp:41-84 | Distinct listed codes have distinct messages, and none of them is "unknown error.". |
| MemAlloc.RequestedBytes | utility/src/oskar_mem_alloc.c:40-48 | The byte count is below 2^64. It equals `n_elements * element_size` whenever the count is non-negative and the product fits. |
| MemAlloc.NegativeCountWraps | utility/src/oskar_mem_alloc.c:40-48 | An element count of -1 with 8-byte elements requests 2^64 - 8 bytes instead of failing. |
| MemAlloc.Allocate | utility/src/oskar_mem_alloc.c:44-69 | Element size 0 gives BAD_DATA_TYPE before the location is looked at. On the CPU the status is MEMORY_ALLOC_FAILURE exactly when malloc returns null, else 0. On the GPU it is the CUDA error. Any other location gives BAD_LOCATION and leaves the data pointer alone. |
| MemAlloc.MemAlloc | utility/src/oskar_mem_alloc.c:34-70 | A null block gives INVALID_ARGUMENT. Otherwise the status and the new data pointer are those of `Allocate`, and the block's count, location and type are unchanged. |
| VisibilitiesCopy.FirstFailure | interferometry/src/oskar_visibilities_copy.c:58-71 | The index of the first failed copy: every earlier copy succeeded, and the copy at that index failed. |
| VisibilitiesCopy.Merged | interferometry/src/oskar_visibilities_copy.c:58-69 | After `i` successful copies, the first `i` arrays of dst are the source's and the rest are dst's own. |
| VisibilitiesCopy.MergedStep | interferometry/src/oskar_visibilities_copy.c:58-69 | One more successful copy extends the copied prefix by exactly that array. |
| VisibilitiesCopy.StoppedAt | interferometry/src/oskar_visibilities_copy.c:58-71 | Stopping at the first failure, or after all six copies, gives the promised outcome. That is the first failing status, or 0, together with exactly the arrays before it copied. |
| VisibilitiesCopy.ArraysInCopyOrder | interferometry/src/oskar_visibilities_copy.c:58-68 | The six arrays are the fields named by the copy order, position by position. |
| VisibilitiesCopy.CopyArray | interferometry/src/oskar_visibilities_copy.c:58-59 | One `oskar_mem_copy` replaces exactly that dst array when it succeeds and nothing otherwise. The metadata and src are untouched. |
| VisibilitiesCopy.CopyStep | interferometry/src/oskar_visibilities_copy.c:58-69 | Copy `i` after `i` successes either extends the copied prefix, or stops with the outcome of the first failure. |
| VisibilitiesCopy.CopyMetadata | interferometry/src/oskar_visibilities_copy.c:46-55 | All ten metadata fields of dst become those of src, and no array changes. |
| VisibilitiesCopy.CopyArrays | interferometry/src/oskar_visibilities_copy.c:57-71 | The returned status is that of the first failed copy, or 0. Exactly the arrays before the failure are copied. dst's metadata and all of src are unchanged. |
| VisibilitiesCopy.VisibilitiesCopy | interferometry/src/oskar_visibilities_copy.c:37-72 | A null dst or src gives INVALID_ARGUMENT. Otherwise dst's metadata equals src's, the arrays are copied in order until the first failure, that failure's status (or 0) is returned, and src is never modified. When src is null and dst is not, dst's metadata and arrays are unchanged. |
| RandomUniform.GroupElement | oskar/mem/src/oskar_mem_random_uniform.c:47-56 | Element `4i + k` is the conversion of word `k` of the generator call with counter `i`. |
| RandomUniform.FillGroup | oskar/mem/src/oskar_mem_random_uniform.c:49-56 | One group pass sets elements `4i .. 4i+3` to their uniform values and leaves every other element alone. |
| RandomUniform.FillTail | oskar/mem/src/oskar_mem_random_uniform.c:59-72 | The tail uses call `n / 4`. It writes exactly the indices `4(n / 4) + k < n`, once each, and nothing else. |
| RandomUniform.FillUniform | oskar/mem/src/oskar_mem_random_uniform.c:38-73 | Every index below `n` is written exactly once, in increasing order, with a value determined by the seed, the three counters and the index alone. No index at or above `n` changes. |
| RandomUniform.FillCount | oskar/mem/src/oskar_mem_random_uniform.c:117-153 | The count handed to the fill is the element count narrowed to `unsigned int`: below 2^32, never larger, and equal to it when it fits. |
| RandomUniform.CountNarrows | oskar/mem/src/oskar_mem_random_uniform.c:117-153 | A complex-matrix block of 2^29 elements holds 2^32 values, and the fill receives a count of 0. |
| RandomUniform.MemRandomUniform | oskar/mem/src/oskar_mem_random_uniform.c:112-163 | A nonzero status on entry is kept and nothing changes. GPU data gives the device check status with CUDA, and CUDA_NOT_AVAILABLE with the data untouched without it. CPU single/double data is filled below the narrowed count and not beyond it. Any other precision or location leaves the data untouched with status 0. |
| ArrayPattern.Int32Of | oskar/telescope/station/src/oskar_evaluate_array_pattern_hierarchical.c:92 | The `(int)` cast of a length is congruent to it modulo 2^32, lies in the 32-bit range, and equals it below 2^31. |
| ArrayPattern.SizeOf | oskar/telescope/station/src/oskar_evaluate_array_pattern_hierarchical.c:92-93 | `num_points` passed as a `size_t` is below 2^64 and equal to it when non-negative. |
| ArrayPattern.Check | oskar/telescope/station/src/oskar_evaluate_array_pattern_hierarchical.c:60-89 | LOCATION_MISMATCH exactly when an operand is not co-located. Otherwise BAD_DATA_TYPE exactly when beam/signal/weights is not complex or weights is a matrix. Otherwise TYPE_MISMATCH exactly when a type or precision differs from the station's. 0 exactly when all three checks pass. |
| ArrayPattern.Dispatch | oskar/telescope/station/src/oskar_evaluate_array_pattern_hierarchical.c:98-314 | An unknown precision gives BAD_DATA_TYPE. A kernel runs exactly when beam and signal are both matrix or both scalar and the location is the CPU, or the GPU with CUDA. The kernel is the matrix one for matrix data, and 3-D exactly when the array is 3-D. A mixed pair leaves status 0. An unknown location gives BAD_LOCATION, and the GPU without CUDA gives CUDA_NOT_AVAILABLE. |
| ArrayPattern.Evaluate | oskar/telescope/station/src/oskar_evaluate_array_pattern_hierarchical.c:51-96 | A set status returns unchanged, and a failed check returns its code. A realloc to `num_points` happens exactly when the checks pass and `(int)length < num_points`. A failed realloc stops. Otherwise the dispatch decides. A kernel runs only after every check has passed. |
| ArrayPattern.NeverShrinks | oskar/telescope/station/src/oskar_evaluate_array_pattern_hierarchical.c:91-93 | For lengths and point counts below 2^31, a realloc only ever grows the beam. |
| ArrayPattern.HugeBeamShrinks | oskar/telescope/station/src/oskar_evaluate_array_pattern_hierarchical.c:91-93 | A beam of 2^31 elements compares as negative and is reallocated down to 1 element. |
| ArrayPattern.EvaluateArrayPattern | oskar/telescope/station/src/oskar_evaluate_array_pattern_hierarchical.c:44-315 | The returned status is that of `Evaluate`. The beam length changes only by a successful realloc, and its values only by the chosen kernel. Its type and location never change. |
| ElementPattern.UpdatedMap | apps/lib/src/oskar_TelescopeLoadElementPattern.cpp:155-169 | The entry for a spline file name is overwritten with its absolute path exactly when that file exists in the directory. Every other entry, present or absent, is unchanged. |
| ElementPattern.Key | apps/lib/src/oskar_TelescopeLoadElementPattern.cpp:110-117 | The cache key is empty exactly when both spline paths are empty. |
| ElementPattern.LoadPatterns | apps/lib/src/oskar_TelescopeLoadElementPattern.cpp:91-153 | Nothing happens on a set status, with numerical patterns disabled, or with both paths empty. A key hit copies the cached model and reads nothing. A miss reads the X file into port 1 and the Y file into port 2, each only when its path is non-empty and the file exists, and caches element 0 under the key. |
| ElementPattern.SecondCallHits | apps/lib/src/oskar_TelescopeLoadElementPattern.cpp:119-152 | After a miss that succeeded, a second call with the same file map hits the cache. It yields the same element and leaves the cache as it is. |
| ElementPattern.ResizeElementTypes | apps/lib/src/oskar_TelescopeLoadElementPattern.cpp:81 | A set status is returned unchanged; otherwise the resize's own status is returned. When that is 0, the station ends with exactly one element type, keeping its first or a blank one. When the resize fails, the element types are as they were. |
| ElementPattern.FileMap.UpdateMap | apps/lib/src/oskar_TelescopeLoadElementPattern.cpp:155-169 | The file map becomes `UpdatedMap` of the old map and the directory. |
| ElementPattern.ElementPatternLoader.constructor | apps/lib/src/oskar_TelescopeLoadElementPattern.cpp:42-47 | A new loader keeps the numerical-pattern setting and starts with an empty cache. |
| ElementPattern.ElementPatternLoader.LoadElementPatterns | apps/lib/src/oskar_TelescopeLoadElementPattern.cpp:91-153 | Station element 0, the cache and the status become those of `LoadPatterns`. Every other element is unchanged. |
| ElementPattern.ElementPatternLoader.LoadStation | apps/lib/src/oskar_TelescopeLoadElementPattern.cpp:72-84 | The file map is always updated. Only at the deepest level (`num_subdirs == 0`) is the station resized to one element type and loaded. A failed resize returns its status with the elements and cache unchanged. A set status leaves the status, the station's elements and the cache unchanged. |
| ElementPattern.WalkStops | apps/lib/src/oskar_TelescopeLoadElementPattern.cpp:63-68 | Once the status is set after some station, the walk stops there. The status and the cache stay, and every later station keeps its element types. |
| ElementPattern.WalkOneType | apps/lib/src/oskar_TelescopeLoadElementPattern.cpp:66 | A walk ending with status 0 leaves every station with exactly one element type. |
| ElementPattern.WalkCached | apps/lib/src/oskar_TelescopeLoadElementPattern.cpp:119-152 | A walk ending with status 0, with numerical patterns enabled and a spline file known, has these outcomes. On a hit the cache is unchanged. On a miss only the key is added, bound to what the first station read. Every station ends with that cached model as its one element type. |
| ElementPattern.WalkEnds | apps/lib/src/oskar_TelescopeLoadElementPattern.cpp:61-68 | A set status at the start changes nothing. A walk ending with status 0 leaves one element type per station. With numerical patterns and a key, every station then holds the cached model. |
| ElementPattern.ElementPatternLoader.LoadNext | apps/lib/src/oskar_TelescopeLoadElementPattern.cpp:66-67 | One station's resize and `load_element_patterns`: the status, the cache and its element types are those of `LoadOne`. |
| ElementPattern.ElementPatternLoader.WalkStations | apps/lib/src/oskar_TelescopeLoadElementPattern.cpp:63-68 | The station loop: the status, the cache and every station's element types are those of the `LoadStations` walk over the stations' original element types. |
| ElementPattern.ElementPatternLoader.LoadTelescope | apps/lib/src/oskar_TelescopeLoadElementPattern.cpp:53-70 | The file map is always updated. At the deepest level the status, the cache and every station's element types are those of the `LoadStations` walk, which resizes and loads each station in order, threading the status and the cache. A failed resize or load stops the rest (WalkStops). On success with a non-empty key every station's element 0 is the cached model (WalkCached). Elsewhere, or on a set status, no station and no cache entry changes. |
| Separated.Split | oskar/settings/list/test/Test_SettingsKey.cpp:48-49 | A key always has at least one token. |
| Separated.TokenCount | oskar/settings/list/test/Test_SettingsKey.cpp:47-49 | There is one more token than separators. |
| Separated.TokensFree | oskar/settings/list/test/Test_SettingsKey.cpp:60-62 | No token contains the separator. |
| Separated.JoinSplit | oskar/settings/list/test/Test_SettingsKey.cpp:44-46 | Joining the tokens with the separator gives back the key text. |
| Separated.SplitPiece | oskar/settings/list/test/Test_SettingsKey.cpp:47-50 | Text without the separator is its own single token. |
| Separated.SplitSnoc | apps/lib/src/oskar_sim_interferometer_new.cpp:811-815 | Appending a separator starts a new empty piece, and appending any other character extends the last piece. |
| Separated.JoinSnoc | apps/lib/src/oskar_sim_interferometer_new.cpp:811-815 | Joining one more piece adds the separator and that piece at the end. |
| Separated.SplitJoin | oskar/settings/list/test/Test_SettingsKey.cpp:53-63 | Splitting joined separator-free tokens gives back the tokens. |
| SettingsKeys.SettingsKey.Tokens | oskar/settings/list/test/Test_SettingsKey.cpp:48-49 | The tokens are at least one, free of the separator, and joined they give the key text. |
| SettingsKeys.SettingsKey.Depth | oskar/settings/list/test/Test_SettingsKey.cpp:47-49 | The depth is the token count minus 1. It is 0 exactly when the text has no separator. |
| SettingsKeys.SettingsKey.Leaf | oskar/settings/list/test/Test_SettingsKey.cpp:50 | The leaf has no separator. It is the whole text at depth 0, and otherwise the part after the last separator. |
| SettingsKeys.LeafSuffix | oskar/settings/list/test/Test_SettingsKey.cpp:62 | The joined tokens end with the last token, after a separator when there is more than one token. |
| SettingsKeys.KeyFromTokens | oskar/settings/list/test/Test_SettingsKey.cpp:46 | A key rebuilt from its own tokens and separator is equal to it. |
| SettingsKeys.TokensOfJoin | oskar/settings/list/test/Test_SettingsKey.cpp:59-62 | A key made of separator-free tokens gives those tokens back, with depth equal to the token count minus 1 and the last token as its leaf. |
| SettingsKeys.CreateSimple | oskar/settings/list/test/Test_SettingsKey.cpp:41-51 | "foo": it reads back as "foo", equals a fresh key, and has depth 0, one token and leaf "foo". |
| SettingsKeys.CreateType1 | oskar/settings/list/test/Test_SettingsKey.cpp:53-63 | "foo/bar/key" with '/': depth 2, 3 tokens, leaf "key". |
| SettingsKeys.CreateType2 | oskar/settings/list/test/Test_SettingsKey.cpp:65-75 | "foo\\bar\\key" with '\\': depth 2, 3 tokens, leaf "key". |
| SettingsKeys.CreateType3 | oskar/settings/list/test/Test_SettingsKey.cpp:77-87 | "A:B:C" with ':': depth 2, 3 tokens, leaf "C". |
| Blocks.NumVisBlocks | apps/lib/src/oskar_sim_interferometer_new.cpp:197-199 | The block count is the ceiling of `total_times / block_length`: the blocks cover the run, and one block fewer would not. |
| Blocks.NumTimesBlock | apps/lib/src/oskar_sim_interferometer_new.cpp:395-399 | Every block has between 1 and `block_length` times and ends within the run. Only the last block is clamped. |
| Blocks.TimesBeforeClosed | apps/lib/src/oskar_sim_interferometer_new.cpp:395-399 | The first `k` blocks hold `min(k * len, total)` times. |
| Blocks.BlockSizesSum | apps/lib/src/oskar_sim_interferometer_new.cpp:395-399 | The block sizes add up to `total_times`. |
| Blocks.TimeInBlock | apps/lib/src/oskar_sim_interferometer_new.cpp:395-399 | Every simulation time lies in the block `t / len`, within its clamped range. |
| Blocks.Decompose | apps/lib/src/oskar_sim_interferometer_new.cpp:420-421 | A unit index splits as `chunk * ntb + time` with `time < ntb`. |
| Blocks.DecomposeInRange | apps/lib/src/oskar_sim_interferometer_new.cpp:417-421 | A unit below `ntb * num_chunks` names a valid chunk. |
| Blocks.DecomposeOnto | apps/lib/src/oskar_sim_interferometer_new.cpp:420-421 | Every (chunk, time) pair in range is the decomposition of a unit in range. |
| Blocks.DecomposeInjective | apps/lib/src/oskar_sim_interferometer_new.cpp:420-421 | Distinct units have distinct (chunk, time) pairs. |
| Blocks.ChunkMonotone | apps/lib/src/oskar_sim_interferometer_new.cpp:420-430 | A larger unit never has a smaller chunk index. |
| Blocks.SliceInBlock | apps/lib/src/oskar_sim_interferometer_new.cpp:576-579 | The slice of a valid (time, channel) lies inside the block's cross-correlation array. |
| Blocks.SliceMembership | apps/lib/src/oskar_sim_interferometer_new.cpp:576-579 | A position lies in the slice of (t, c) exactly when its baseline-run index divides into time t and channel c. |
| Blocks.SlicesDisjoint | apps/lib/src/oskar_sim_interferometer_new.cpp:576-579 | The slices of distinct valid (time, channel) pairs do not overlap. |
| UnitSums.PartitionSum | apps/lib/src/oskar_sim_interferometer_new.cpp:483-488 | When the devices' unit lists hold every unit exactly once between them, the devices' sums add up to the sum over all units. |
| UnitSums.PartitionStep | apps/lib/src/oskar_sim_interferometer_new.cpp:413-417 | Handing the next counter value to any device keeps the lists a partition of the values handed out. |
| UnitSums.IncreasingAppend | apps/lib/src/oskar_sim_interferometer_new.cpp:413-417 | A claim above a device's previous claim keeps its claims strictly increasing. |
| DoubleBuffer.IterationCalls | apps/lib/src/oskar_sim_interferometer_new.cpp:268-279 | Iteration `b` computes block `b` into slot `b % 2` when `b < n`. It writes block `b - 1` from slot `(b - 1) % 2` when `b > 0`. |
| DoubleBuffer.ScheduleComputes | apps/lib/src/oskar_sim_interferometer_new.cpp:268-276 | After `m` iterations, blocks `0 .. min(m, n) - 1` have been computed in order, once each, block `i` into slot `i % 2`. |
| DoubleBuffer.ScheduleWrites | apps/lib/src/oskar_sim_interferometer_new.cpp:277-279 | After `m` iterations, blocks `0 .. m - 2` have been written in order, once each, from slot `i % 2`. |
| DoubleBuffer.FullScheduleCalls | apps/lib/src/oskar_sim_interferometer_new.cpp:268-279 | The `n + 1` iterations compute and write every block exactly once, in order, each write from the slot its compute filled, and never compute block `n`. |
| DoubleBuffer.SchedulePositions | apps/lib/src/oskar_sim_interferometer_new.cpp:268-279 | The compute of block `b` is call `2b - 1`. The write of block `b - 1` follows it at call `2b`. |
| DoubleBuffer.NoOverwriteBeforeWrite | apps/lib/src/oskar_sim_interferometer_new.cpp:271-280 | Between the compute of block `i` and its write, nothing computes into slot `i % 2`. |
| Simulation.WorkCounter.Claim | apps/lib/src/oskar_sim_interferometer_new.cpp:413-416 | A claim returns the counter's value and then increments it. |
| Simulation.WorkCounter.Reset | apps/lib/src/oskar_sim_interferometer_new.cpp:283 | The counter is back at 0 between blocks. |
| Simulation.AddAt | apps/lib/src/oskar_sim_interferometer_new.cpp:576-579 | Adding through an alias window changes exactly the window and adds there, position by position. |
| Simulation.TotalOfSums | apps/lib/src/oskar_sim_interferometer_new.cpp:483-488 | The total over devices of per-device unit sums is the sum of the devices' sums. |
| Simulation.CopiedAppend | apps/lib/src/oskar_sim_interferometer_new.cpp:424-430 | A new unit causes a chunk copy exactly when its chunk differs from the previous unit's. |
| Simulation.CopiesIncrease | apps/lib/src/oskar_sim_interferometer_new.cpp:424-430 | For increasing claims, the copied chunks are strictly increasing, so no chunk is copied twice. The last one copied is the chunk of the last unit. |
| Simulation.CopiesCover | apps/lib/src/oskar_sim_interferometer_new.cpp:424-430 | The chunks copied are exactly the chunks of the units taken. |
| Simulation.Simulator.constructor | apps/lib/src/oskar_sim_interferometer_new.cpp:684-697 | Every device starts with zeroed device and host blocks of the block shape, status 0, a counter at 0, and nothing written. |
| Simulation.Simulator.SliceBaseline | apps/lib/src/oskar_sim_interferometer_new.cpp:576-579 | Within the slice of (t, ch), the offset from the slice start is the baseline. |
| Simulation.Simulator.SimBaselines | apps/lib/src/oskar_sim_interferometer_new.cpp:543-660 | `sim_baselines_` for one channel adds the correlation of each baseline into the (t, ch) slice and nothing elsewhere. It adds nothing when the clipped chunk has no sources or `t` is past the block's times. |
| Simulation.Simulator.SimUnit | apps/lib/src/oskar_sim_interferometer_new.cpp:447-457 | The channel loop adds the unit's value at every position of its time, across all channels and baselines. |
| Simulation.Simulator.AccumulatedSum | apps/lib/src/oskar_sim_interferometer_new.cpp:410-458 | Each value of a device block is the sum, over the units it simulated, of what each unit adds there. |
| Simulation.Simulator.DeviceOkStep | apps/lib/src/oskar_sim_interferometer_new.cpp:410-458 | One simulated unit extends the device's unit list and its copy list. It copies the chunk only on a change, and its block stays the sum of its units. |
| Simulation.Simulator.DevicesStep | apps/lib/src/oskar_sim_interferometer_new.cpp:413-457 | One device simulating the claimed unit keeps the invariant of every device. |
| Simulation.Simulator.StageFinish | apps/lib/src/oskar_sim_interferometer_new.cpp:417 | A claim past the bound, or under a nonzero status, ends that device's loop and keeps the block invariant. |
| Simulation.Simulator.StageSimulate | apps/lib/src/oskar_sim_interferometer_new.cpp:420-457 | Simulating the claimed unit keeps the block invariant. The unit joins the partition of claimed units. |
| Simulation.Simulator.BeginBlock | apps/lib/src/oskar_sim_interferometer_new.cpp:383-409 | Every device block is cleared with the block's start and times, `previous_chunk_index` is -1, and no unit has been taken. |
| Simulation.Simulator.FinishUnits | apps/lib/src/oskar_sim_interferometer_new.cpp:417 | The device leaves its loop. Nothing else changes. |
| Simulation.Simulator.SimulateUnit | apps/lib/src/oskar_sim_interferometer_new.cpp:412-457 | The device takes unit `u`, simulates it, and the stage invariant holds one claim later. |
| Simulation.Simulator.Step | apps/lib/src/oskar_sim_interferometer_new.cpp:410-458 | One pass claims a unit. The loop ends exactly when the claim is past `ntb * num_chunks` or the status is set. Otherwise the unit joins that device's list. A set status is never cleared. |
| Simulation.Simulator.CopyHolds | apps/lib/src/oskar_sim_interferometer_new.cpp:460-462 | Copying finished device blocks into a slot makes the slot hold the block. Its values summed over devices are the sum over every unit of the block. |
| Simulation.Simulator.Interleave | apps/lib/src/oskar_sim_interferometer_new.cpp:410-417 | Any interleaving of claims by any devices keeps the stage invariant. |
| Simulation.Simulator.Drain | apps/lib/src/oskar_sim_interferometer_new.cpp:410-458 | A device runs its loop to the end and keeps the stage invariant. |
| Simulation.Simulator.DrainAll | apps/lib/src/oskar_sim_interferometer_new.cpp:410-458 | Every device runs its loop to the end. |
| Simulation.Simulator.UnitLoops | apps/lib/src/oskar_sim_interferometer_new.cpp:410-458 | After any interleaving of claims, every device's loop ends with the stage invariant intact. |
| Simulation.Simulator.CopyToHost | apps/lib/src/oskar_sim_interferometer_new.cpp:460-463 | The copy's own status becomes the status when it was 0. With status 0 afterwards, the units the devices took are every unit exactly once, and slot `b % 2` holds the block. A failed copy leaves the host slots unchanged. Each device's claims increase and it copied only chunk changes. The other slot is kept. |
| Simulation.Simulator.StageCopies | apps/lib/src/oskar_sim_interferometer_new.cpp:424-430 | Every device took its units in increasing order and copied exactly the chunk changes among them. |
| Simulation.Simulator.ComputeBlock | apps/lib/src/oskar_sim_interferometer_new.cpp:378-466 | `sim_vis_block_` for block `b` on all devices, under any claim order. With status 0, every unit is simulated exactly once and slot `b % 2` holds the block. No device copies a chunk twice, and slot `!(b % 2)` is untouched. |
| Simulation.Simulator.SumDevices | apps/lib/src/oskar_sim_interferometer_new.cpp:483-488 | The fold loop yields, element by element, the sum over all devices of the slot's cross- and auto-correlations. |
| Simulation.Simulator.FoldDevices | apps/lib/src/oskar_sim_interferometer_new.cpp:480-488 | Device 0's slot holds the element-wise sum over all devices and keeps its times. Device 0's other slot and every other device are unchanged. |
| Simulation.Simulator.FoldedHolds | apps/lib/src/oskar_sim_interferometer_new.cpp:480-488 | The folded block of a slot holding block `i` has block `i`'s times, the expected sums and zero auto-correlations. |
| Simulation.Simulator.NoisyIsExpected | apps/lib/src/oskar_sim_interferometer_new.cpp:506-509 | The folded block is the noise-free sum of block `i`. Adding the system noise of block `i`, when noise is enabled, gives the block to be written. |
| Simulation.Simulator.WriteBlock | apps/lib/src/oskar_sim_interferometer_new.cpp:468-537 | `write_vis_block_` of block `i`: it folds the devices, and the fold and uvw step leave their status. Only when that status is 0 is the noise added and the block written, leaving the write status. Exactly the expected block `i` is appended to the output when the status stays 0. After the fold, device 0's slot holds that expected block with the noise added in place, or the noise-free sum when the uvw step failed. The other devices' slots and the other slot are kept. A set status changes nothing. |
| Simulation.Simulator.ComputeStep | apps/lib/src/oskar_sim_interferometer_new.cpp:272-276 | The compute half of an iteration fills slot `b % 2` with block `b` and keeps block `b - 1` in the other slot. |
| Simulation.Simulator.WriteStep | apps/lib/src/oskar_sim_interferometer_new.cpp:277-279 | The write half of an iteration writes block `b - 1` from slot `!(b % 2)` and keeps block `b` in slot `b % 2`. |
| Simulation.Simulator.BlockIteration | apps/lib/src/oskar_sim_interferometer_new.cpp:268-283 | One iteration makes exactly the calls of iteration `b` of the schedule, and appends block `b - 1`, as expected, when the status stays 0. |
| Simulation.Simulator.Run | apps/lib/src/oskar_sim_interferometer_new.cpp:254-290 | The calls made are a prefix of the `n + 1`-iteration schedule. Every block written is the expected one, in order. With status 0 at the end, all `n` blocks are written. |
| SimHelpers.DispWidth | apps/lib/src/oskar_sim_interferometer_new.cpp:845-848 | The width is between 1 and 6. |
| SimHelpers.DispWidthDigits | apps/lib/src/oskar_sim_interferometer_new.cpp:845-848 | Below 100000 the width is the number of decimal digits, and from there on it is 6. |
| SimHelpers.CounterFits | apps/lib/src/oskar_sim_interferometer_new.cpp:287-290 | Every counter `1 .. n` printed in width `disp_width_(n)` fits, for `n` below 10^6. |
| SimHelpers.JoinOperandsAllocated | apps/lib/src/oskar_sim_interferometer_new.cpp:677-709 | Both operands of the join that makes J exist. K is scalar, and the second operand has J's type. It is R exactly in full polarisation mode, when the visibility type is a matrix. |
| WarningBox.WordsNoSpace | apps/lib/src/oskar_sim_interferometer_new.cpp:815 | No word read by `getline` at spaces contains a space. |
| WarningBox.SplitLast | apps/lib/src/oskar_sim_interferometer_new.cpp:815 | The last piece is empty exactly when the message is empty or ends with a space. |
| WarningBox.WordsOfMessage | apps/lib/src/oskar_sim_interferometer_new.cpp:810-815 | The words `getline` reads are none for an empty message. Otherwise they join back to the message without one trailing space, and no word has a space. |
| WarningBox.LayKeepsText | apps/lib/src/oskar_sim_interferometer_new.cpp:815-832 | The wrapped lines, concatenated, are the words joined with spaces. The final line is never empty. |
| WarningBox.TextsKeepWords | apps/lib/src/oskar_sim_interferometer_new.cpp:815-840 | All the lines the box frames, concatenated, are the message's words joined with spaces. |
| WarningBox.LayWidth | apps/lib/src/oskar_sim_interferometer_new.cpp:815-831 | With words of at most 50 characters, every wrapped line is at most 51 characters and the final line at most 50. |
| WarningBox.PadsAsWrittenNegative | apps/lib/src/oskar_sim_interferometer_new.cpp:833-837 | The left pad is at least 1. The right pad is negative exactly for a line of even length of 54 or more. |
| WarningBox.Pads | apps/lib/src/oskar_sim_interferometer_new.cpp:833-839 | The corrected pads make the framed row 55 wide, or the line plus 3 when it is longer. The left pad is the right pad or one more. |
| WarningBox.Frame | apps/lib/src/oskar_sim_interferometer_new.cpp:833-840 | A framed row starts and ends with '!', holds the line centred between the pads, and is spaces elsewhere. |
| WarningBox.FrameAgrees | apps/lib/src/oskar_sim_interferometer_new.cpp:821-827 | The code as written fails exactly for lines of even length 54 or more. Otherwise it frames the line exactly as `Frame` does. |
| WarningBox.LongWordThrows | apps/lib/src/oskar_sim_interferometer_new.cpp:815-840 | A message of one 54-character word frames an empty line and then that word. The code as written fails on it. The corrected frame is 57 wide. |
| WarningBox.ShortWordsFit | apps/lib/src/oskar_sim_interferometer_new.cpp:815-842 | With words of at most 50 characters, every framed row is exactly 55 wide. The code as written produces the same box as the corrected one. |
| WarningBox.ShortTextsAgree | apps/lib/src/oskar_sim_interferometer_new.cpp:815-840 | Lines of at most 51 characters are framed identically by the code as written and the corrected code. |
| WarningBox.PlaceWords | apps/lib/src/oskar_sim_interferometer_new.cpp:813-832 | The `getline` loop emits the opening rules and a framed row for every wrapped line, and leaves the last line pending. |
| WarningBox.LogWarningBox | apps/lib/src/oskar_sim_interferometer_new.cpp:802-843 | With the corrected padding (see Findings), the rows logged are a blank rule, a '*' rule, every wrapped line of the message framed, a '*' rule and a blank rule. |

## Left out

- The physics is given as parameters of the simulator, not computed:
  - Jones E, R and K evaluation, `oskar_correlate`, flux scaling and the
    horizon clip are the function `corr` and the predicate `hasSources`;
  - the status a work unit leaves is the function `unitStatus`;
  - the system noise of a block is the functions `xcNoise` and
    `acNoise`;
  - the status of the host copy of a block is `hostCopyStatus`;
  - the status of the fold's additions and the uvw evaluation is
    `uvwStatus`;
  - the status of noise addition and file output is `writeStatus`;
  - the status of `oskar_station_resize_element_types` is `resizeStatus`.
- Visibilities are exact integers. Floating-point rounding, and the order
  dependence of floating-point sums, are not modelled.
- OpenMP threads, `#pragma omp barrier` and `critical`, `cudaSetDevice` and
  the thread-0/compute-thread split are not modelled. Within an iteration,
  the model runs every device's compute before the write:
  - the devices' claims are interleaved as an arbitrary schedule;
  - the unit loop of every device that has not finished is then run to
    the end.

  The model does not capture how the compute and write threads overlap,
  nor threads continuing past the barriers once the status is set.
- A unit whose `unitStatus` is nonzero is modelled as completing its
  channel loop and then setting the status. The channel-loop `break` at
  line 449 of the driver is not modelled.
- The status of `oskar_vis_block_clear` and of the block metadata setters
  at the start of `sim_vis_block_` is taken as success.
- What a callee leaves behind when it fails part-way is not modelled:
  - a failed host copy leaves the host slots as they were;
  - a failed resize leaves the element types as they were;
  - the fold into device 0 always completes, and a failed
    `oskar_mem_add` is reported through `uvwStatus` after the fold.

  Nothing reads these states while the status is set.
- ArrayPattern.EvaluateArrayPattern: the beam's `length` and its `values`
  are separate fields that are not tied together. The kernel's output
  `dft(kernel, num_points)` replaces the whole `values` sequence, and
  nothing states that its length is `num_points`. The source writes
  `num_points` values into a beam at least that long.
- The start of the driver is not modelled: settings loading, the output
  file check, device counting, sky and telescope set-up, and the host
  allocations. Nor are the timers, the memory-usage report,
  `record_timing_` or the log messages, beyond the width of the counters.
- `oskar_convert_ecef_to_baseline_uvw`, the Measurement Set and OSKAR
  binary formats, and the header written with block 0 are not modelled.
  `written` records the blocks handed to output.
- The element-pattern cache holds element models as values. The source
  caches a pointer to the first loading station's element 0, and a later
  hit copies through that pointer. Value semantics give the same result
  because each station is loaded once per walk and nothing modifies the
  cached element after it is stored; the aliasing itself is not modelled.
- The driver's C `int` counters are unbounded here. Overflow of
  `block_index * block_length` or `num_times_block * total_chunks` is not
  modelled.
- Simulation.Simulator.Run: states that the calls made are the first
  iterations of the schedule and that every written block is correct. It
  does not state at which iteration a nonzero status stopped the loop.
- In the warning box, `vsprintf` into the 5000-byte buffer is not
  modelled, and the message is taken as given. The `size_t` to `int`
  narrowing of `pad` assumes lines shorter than 2^31. `oskar_log_line`
  rows are a rule character, not their width.
- The Random123 generator and the conversion to [0, 1) are parameters. The
  CUDA fill kernels are not modelled: for GPU data only the status is.
- The DFT kernels of the array-pattern dispatch are a parameter. The
  model states which kernel is chosen and that it fills the beam.
- `oskar_element_read` and `oskar_element_copy` are modelled as their
  effect on element 0: a recorded (port, path) read or a copy. File
  existence is the predicate `fileExists`, and the log messages are not
  modelled.
- The implementation of `oskar::SettingsKey` is not part of this model.
  The key is modelled from its unit tests as a split on the separator.
- The error codes' numeric values are not part of this model. Status
  codes are a datatype.

## Findings

| source | as written | input that shows it | evidently intended | confidence | as-written member | corrected member |
|---|---|---|---|---|---|---|
| apps/lib/src/oskar_sim_interferometer_new.cpp:833-839 (and 821-827) | `pad = 55 - len - 1`, and `pad_r` is decremented when `pad` is even. A line of even length 54 or more gets `pad_r == -1`, and `std::string(size_t(-1), ' ')` throws `std::length_error`. | A message with one word of 54 characters. The wrapping step also frames an empty line before that word. | A box row of width 55 for short lines, and a row the line plus 3 wide for longer lines, never with a negative pad | not executed; latent, since the one message the driver logs has short words | WarningBox.LongWordThrows (with WarningBox.BoxAsWritten, WarningBox.FrameAsWritten, WarningBox.PadsAsWrittenNegative) | WarningBox.LogWarningBox (with WarningBox.Pads, WarningBox.Frame, WarningBox.FrameAgrees, WarningBox.ShortWordsFit) |

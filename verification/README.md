# Proofs about ggml and the whisper decoder

This project models the parts of the repository whose correctness is decided by their own code,
and proves what they are for. Each module follows one component.

| component | modules | main result |
|---|---|---|
| graph memory planner | `FreeList`, `DynTallocr`, `TensorGraph`, `PlannedMemory`, `PlanInvariant`, `GraphPlanner`, `GraphReserve` | running a graph in planned, overlapping memory computes what one private buffer a tensor computes; plans fit their buffers, give back what is no longer wanted, and can be replayed |
| tensor hash set | `HashSet` | a stable injective index map, over words of bits and linear probing |
| backend scheduler | `SchedAssign`, `SchedSplit`, `SchedBoundary`, `SchedRun`, `SchedExact`, `SchedMemory`, `SchedWhole` | five-pass assignment and splitting preserves what every graph computes exactly when backends that share a buffer type get no less general towards the front; from a graph to a memory plan for it with copies, in which it comes out right for any operations |
| grammar | `Utf8`, `Utf8Cuts`, `GrammarRules`, `GrammarStacks`, `GrammarTokens`, `GrammarDecoding`, `GrammarAgreement` | the pushdown simulator recognises exactly the grammar's language, whatever tokens spell a text; batch rejection is acceptance looked ahead, and exactly when it agrees with accepting; which texts may be cut anywhere, exactly |
| shared KV cache and decoders | `KvCache`, `SharedHistory`, `BeamShuffle`, `SharedDecoders` | at every iteration each decoder has the logits it would have with a private history |
| decoding loop | `DecodeLoop`, `DecodeResults`, `DecodeAttempts` | timestamp discipline, where every window begins, bounds of prompts and positions, which track is used, progress of windows |
| algorithms | `Fft`, `Dtw`, `VadMachine`, `VadSilence`, `Vad`, `VadLimits`, `TimeMap`, `TimeMapRun` | recursive transform = naive transform; alignment path, and exactly when it is cheapest; well-formed speech segments, exactly which of them a silence does not end, and exactly when their maximum duration is kept; monotone time mapping from any probabilities |

Methods follow the source's loops and updates; functions and predicates give what they are proved
against; lemmas say what that means. Tensors are numbered, and a map from tensors to records is a
sequence indexed by tensor. A place where the source aborts is a failure the method returns, with
the exact or the only condition for it in the contract.

Where the code and what one would expect of it part ways, the model follows the code:

- best fit is best only inside the last chunk that has a fit, since the best size is reset for each chunk (`DynTallocr.DynTallocr.FindInside`, `DynTallocr.BestFitPassedOver`); `DynTallocr.BestFitExactly` says when that is best of all;
- the branch that reuses the memory of a view's root is never reached, since a view is never marked as allocated (`GraphPlanner.Gallocr.FindReusable`);
- `remove_block` reads one slot past the live blocks; the model shifts live blocks only, with the same result;
- the upgrade of pass 3 compares the buffer types backends allocate, not the memory a node is in, so a node can be moved away from its memory and a view of it be copied too early (`SchedExact.OneNodeIsLost`, `SchedExact.CopyComesLate`); `SchedExact.UpgradeKeepsReachExactly` and `SchedExact.SchedulesPreserveMeaningExactly` say for which backends this cannot happen;
- the high bits of continuation bytes are checked only when a sequence is carried over from an earlier text (`Utf8Cuts.CutsMayShow`, `Utf8Cuts.CutsDoNotShowExactly`);
- an inverse character class rejects an unfinished character as soon as one completion is excluded (`GrammarTokens.InversePartialMatchMeaning`), so a token that is needed may be penalised (`GrammarAgreement.NeededPartialTokenRejected`); `GrammarDecoding.PartialTokenSurvivesExactly` says which tokens survive;
- the penalty stops reading a token at a code point 0, accepting it does not (`GrammarAgreement.ZeroIsAllowedAndStuck`, `GrammarAgreement.AgreesExactly`);
- the alignment is not always of least cost: `c2` is taken when `c0 == c1 < c2` (`Dtw.ChosenIsLeast`, `Dtw.NotAlwaysLeast`, `Dtw.LeastPathExactly`);
- merging may join speech that was split for being too long, so the maximum duration is kept exactly when a window is at least as long as the gaps merging closes (`VadLimits.MergedTooLong`, `VadLimits.MaximumKeptExactly`);
- when a segment becomes too long in a silence and goes on from before it, the silence is counted anew, so one that is long enough may not end it (`VadSilence.SilenceMayNotEnd`); `VadSilence.FoundSettled` says exactly when;
- the best decoder of a window may be left over from an earlier attempt (`DecodeAttempts.LeftOverIsBest`);
- leafs no node uses are not checked for size before a replay, so replay promises are about nodes and sources unless such leafs have not grown (`GraphReserve.ReplayIsSafe`, `GraphReserve.AcceptedFitsExactly`, `GraphReserve.Reserve.IdleLeafMayOverrun`).

## Model

| member | source | states |
|---|---|---|
| FreeList.CanonicalUnique | library/src/main/jni/ggml/src/ggml-alloc.c:138-181 | A sorted list of non-empty, non-touching free blocks is determined by the set of bytes it covers: equal free bytes mean an equal list, whatever was taken and returned before. |
| FreeList.AllFreeIsOneBlock | library/src/main/jni/ggml/src/ggml-alloc.c:163-181 | A chunk all of whose bytes are free is one block from 0 to its capacity. |
| FreeList.GrownAtEndAdds | library/src/main/jni/ggml/src/ggml-alloc.c:321-335 | Growing a block at its end, and merging it with the next one when they then touch, keeps the list canonical and adds exactly the freed bytes. |
| FreeList.GrownAtStartAdds | library/src/main/jni/ggml/src/ggml-alloc.c:336-349 | Growing a block at its start keeps the list canonical and adds exactly the freed bytes when the block before does not touch them (it would have been found first). |
| FreeList.InsertedAdds | library/src/main/jni/ggml/src/ggml-alloc.c:138-153 | A new block put in before the first block with a higher address keeps the list canonical and adds exactly its bytes. |
| FreeList.ShrunkTakes | library/src/main/jni/ggml/src/ggml-alloc.c:264-272 | Taking bytes from the front of a block, dropping it when used up, keeps the list canonical and removes exactly those bytes, all of which were free. |
| FreeList.AlignedSizeLeast | library/src/main/jni/ggml/src/ggml-alloc.c:56-60 | Rounding up to the alignment is monotone, leaves multiples alone, and never passes a multiple that is large enough. |
| DynTallocr.Chunk.InsertBlock | library/src/main/jni/ggml/src/ggml-alloc.c:138-153 | Shifts the array in place; fails exactly when it is full, and otherwise adds the bytes of the new block and nothing else. |
| DynTallocr.Chunk.RemoveBlock | library/src/main/jni/ggml/src/ggml-alloc.c:155-161 | Shifts the array in place so that block idx is gone and the others keep their order. |
| DynTallocr.Chunk.FreeBytes | library/src/main/jni/ggml/src/ggml-alloc.c:315-353 | Adds exactly the freed bytes and keeps the list canonical; fails exactly when the bytes touch no block and 256 blocks are in use. |
| DynTallocr.TakeKeeps | library/src/main/jni/ggml/src/ggml-alloc.c:264-309 | Taking the front of a free block keeps the allocator invariant (free blocks canonical and aligned, live regions apart from them and each other, free plus live bytes are the whole chunk, live regions end within max_size); the region handed out is new and apart from every live one. |
| DynTallocr.GiveBackKeeps | library/src/main/jni/ggml/src/ggml-alloc.c:315-353 | Returning a live region, or an aligned tail of it, keeps the allocator invariant for what is left of the region. |
| DynTallocr.NewChunkKeeps | library/src/main/jni/ggml/src/ggml-alloc.c:163-181 | Opening a chunk keeps the allocator invariant. |
| DynTallocr.AllReturned | library/src/main/jni/ggml/src/ggml-alloc.c:205-353 | Once nothing is live, each chunk is back to the single block it was opened with, in whatever order regions were returned. |
| DynTallocr.FreeListsFollowLive | library/src/main/jni/ggml/src/ggml-alloc.c:205-353 | Two chunks of equal capacity with equal live bytes have equal free lists, whatever their histories. |
| DynTallocr.FreeIffNotLive | library/src/main/jni/ggml/src/ggml-alloc.c:205-353 | Conservation: a byte of a chunk is free exactly when no live region holds it. |
| DynTallocr.EndChoiceGrowsLeast | library/src/main/jni/ggml/src/ggml-alloc.c:229-250 | When only last blocks fit, the chunk chosen makes max_size grow least, and without growth wastes least. |
| DynTallocr.DynTallocr.FindInside | library/src/main/jni/ggml/src/ggml-alloc.c:214-227 | Best fit among the blocks that are not last, but only inside the last chunk that has a fit; the later block on a tie. |
| DynTallocr.BestFitExactly | library/src/main/jni/ggml/src/ggml-alloc.c:207-227 | Exact condition: the first search takes a best fit of all chunks if and only if no inner block that fits in an earlier chunk is smaller than all those that fit in the last chunk with one. |
| DynTallocr.BestFitPassedOver | library/src/main/jni/ggml/src/ggml-alloc.c:207-227 | Two chunks, as an allocator can leave them, in which a request that fits the gap in the first chunk exactly takes the one in the second, three times as large. |
| DynTallocr.DynTallocr.FindAtEnd | library/src/main/jni/ggml/src/ggml-alloc.c:229-250 | The last block whose chunk reuses its memory best, the earliest one on a tie. |
| DynTallocr.DynTallocr.Alloc | library/src/main/jni/ggml/src/ggml-alloc.c:205-312 | Hands out an aligned region apart from all live ones and below max_size, from the block the two searches choose or from a new chunk; fails exactly when nothing fits and 16 chunks are open. |
| DynTallocr.DynTallocr.NewChunk | library/src/main/jni/ggml/src/ggml-alloc.c:163-181 | The capacity of a new chunk: the larger of the request and max_chunk_size, SIZE_MAX/2 for the last chunk allowed. |
| DynTallocr.DynTallocr.FreeBytes | library/src/main/jni/ggml/src/ggml-alloc.c:315-353 | The live region loses what is returned; max_size and capacities stay; fails exactly when the free-block array is full and the bytes touch no block. |
| TensorGraph.RunIsValue | library/src/main/jni/ggml/src/ggml-alloc.c:626-826 | Running a graph with one private buffer a tensor computes plain evaluation of each tensor from the values of its sources (no writes through views); a tensor without an operation that is neither input nor leaf is filled with an arbitrary value at its place in the run. |
| PlannedMemory.WriteClobbersNothing | library/src/main/jni/ggml/src/ggml-alloc.c:626-826 | Under a safe plan, what a node writes overlaps no tensor whose value is wanted after it. |
| PlannedMemory.StepAgrees | library/src/main/jni/ggml/src/ggml-alloc.c:626-826 | One node: the machine with planned, overlapping memory and the one with private buffers compute the same bytes (in-place nodes, writes through views and tensors filled from outside included) and go on agreeing on everything still wanted. |
| PlannedMemory.PlannedRunAgrees | library/src/main/jni/ggml/src/ggml-alloc.c:626-826 | Every run: for any kernels and any contents of padding bytes, both machines agree after each node on everything still wanted. |
| PlannedMemory.EveryNodeRight | library/src/main/jni/ggml/src/ggml-alloc.c:626-826 | Each computed node holds, right after it ran in planned memory, the bytes private buffers hold. |
| PlannedMemory.PlannedMemoryPreservesMeaning | library/src/main/jni/ggml/src/ggml-alloc.c:626-826 | Without writes through views each node holds its plain value right after it ran, and every output still holds its value at the end. |
| PlanInvariant.UncountedIsDone | library/src/main/jni/ggml/src/ggml-alloc.c:786-822 | A tensor with no uses and no views left, not an output, is wanted by no later node. |
| PlanInvariant.LastUse | library/src/main/jni/ggml/src/ggml-alloc.c:655-656 | A source with one child and no views left is done with after the node at hand. |
| PlanInvariant.FreshBirth | library/src/main/jni/ggml/src/ggml-alloc.c:684-690 | A tensor given a region apart from all live ones keeps the planning invariant: live tensors have regions of their own, and tensors whose regions meet have lives that do not. |
| PlanInvariant.InplaceBirth | library/src/main/jni/ggml/src/ggml-alloc.c:674-681 | A node that takes over the memory of a source whose last use it is keeps the planning invariant. |
| PlanInvariant.Death | library/src/main/jni/ggml/src/ggml-alloc.c:694-715 | Taking memory back after the last use keeps the planning invariant. |
| PlanInvariant.StrikeOff | library/src/main/jni/ggml/src/ggml-alloc.c:794-817 | Reference counts stay right when a use is struck off: children count remaining uses, views count the views that still hold on. |
| PlanInvariant.AllCounted | library/src/main/jni/ggml/src/ggml-alloc.c:734-762 | After the counting walk the counts are those of all uses and views of the graph. |
| PlanInvariant.BornWithUses | library/src/main/jni/ggml/src/ggml-alloc.c:764-783 | A tensor that anything reads or looks into still has those uses and views counted when it is given memory. |
| PlanInvariant.ReusableIsDying | library/src/main/jni/ggml/src/ggml-alloc.c:642-671 | While a node is given memory, its records let a source be taken over exactly when the source dies with the node, told by the graph and the uses left: owned, no output, equal layout, exactly one use, and only views that are struck off. |
| PlanInvariant.GivenIsPlaced | library/src/main/jni/ggml/src/ggml-alloc.c:636-691 | So a node that may be computed in place has the address of the first source that dies with it, and a region apart from all live ones exactly without such a source. |
| PlanInvariant.OneMoreTookOver | library/src/main/jni/ggml/src/ggml-alloc.c:764-824 | Later nodes do not move what has been placed: the addresses taken over stay those of the sources to the end. |
| PlanInvariant.NoLeakAfterUse | library/src/main/jni/ggml/src/ggml-alloc.c:794-822 | What was held by the use just struck off alone is freed: no tensor keeps memory without being an output, having uses or views left, or never having had any. |
| PlanInvariant.NoLeakAtEnd | library/src/main/jni/ggml/src/ggml-alloc.c:626-826 | At the end memory is held only by outputs, by tensors nothing reads, and by roots of views nothing reads. |
| PlanInvariant.InvariantGivesSafePlan | library/src/main/jni/ggml/src/ggml-alloc.c:626-826 | The planning invariant at the end of the walk makes the addresses in the hash table a safe plan, each region inside its chunk's max_size. |
| GraphPlanner.Gallocr.FreeExtraSpace | library/src/main/jni/ggml/src/ggml-alloc.c:603-624 | Returns exactly the tail of the parent's region that the smaller node does not need; the node's region stays live. |
| GraphPlanner.Gallocr.FindReusable | library/src/main/jni/ggml/src/ggml-alloc.c:642-683 | The first source that can be taken over, or none when no source can; `PlanInvariant.ReusableIsDying` says which those are. The branch that reuses the root of a view parent is never reached. |
| GraphPlanner.Gallocr.AllocateNode | library/src/main/jni/ggml/src/ggml-alloc.c:626-691 | Gives a tensor memory once, unless it is a view or external; keeps the planning invariant; fails only when an allocator has run out of chunks or of free blocks. It stands where the first source that can be taken over stood, or apart from every live region. |
| GraphPlanner.Gallocr.FreeNode | library/src/main/jni/ggml/src/ggml-alloc.c:694-715 | Takes the region of a non-output back and keeps the planning invariant; an output is left alone. |
| GraphPlanner.Gallocr.ReleaseSource | library/src/main/jni/ggml/src/ggml-alloc.c:794-820 | Strikes off one use of a source and frees it, or the root it is a view of, exactly when no child and no view is left. |
| GraphPlanner.Gallocr.CountAll | library/src/main/jni/ggml/src/ggml-alloc.c:734-762 | Counts all uses and views, of which dependencies without an operation are none, and places inputs before any other node so that nothing overwrites them. |
| GraphPlanner.Gallocr.PlanNode | library/src/main/jni/ggml/src/ggml-alloc.c:764-824 | What holds before node k holds before node k + 1: planning invariant, right counts, everything defined so far placed, nothing kept for nothing. A node that may be computed in place has the address of its first source that dies with it, told by the uses the graph has left (owned, no output, equal layout, one use, no view that still holds on); with no such source its region is apart from all live ones. No other address changes. |
| GraphPlanner.Gallocr.AllocGraphImpl | library/src/main/jni/ggml/src/ggml-alloc.c:721-826 | For every well-formed graph, the dependencies and copies the scheduler puts among the nodes included: unless an allocator is exhausted, the plan is safe, inside every chunk's max_size, all memory no longer wanted has been given back, and in the final table every node that may be computed in place stands where its first dying source does. |
| GraphReserve.ReplayIsSafe | library/src/main/jni/ggml/src/ggml-alloc.c:1000-1101 | A graph of the same structure whose nodes and sources fit the recorded sizes is as safely placed at the recorded addresses: same non-overlap, no region ends later. |
| GraphReserve.PlacedTensorFits | library/src/main/jni/ggml/src/ggml-alloc.c:1000-1053 | Every node and source that needs_realloc accepts takes no more than was recorded for it. |
| GraphReserve.AcceptedExactly | library/src/main/jni/ggml/src/ggml-alloc.c:1000-1053 | A graph of the structure that was reserved is accepted if and only if none of its nodes and their sources that the planner manages takes more than was recorded. |
| GraphReserve.AcceptedFitsExactly | library/src/main/jni/ggml/src/ggml-alloc.c:1000-1101 | Exact condition: every tensor of an accepted graph takes no more than was recorded for it if and only if no leaf that no node uses has grown. |
| GraphReserve.IdleLeafMayGrow | library/src/main/jni/ggml/src/ggml-alloc.c:1000-1053 | Whatever has been reserved, a leaf that no node uses may grow by any amount and the graph is accepted all the same. |
| GraphReserve.IdleLeafMayMeet | library/src/main/jni/ggml/src/ggml-alloc.c:1012-1101 | Grown so far, it reaches into any tensor that starts further up in its chunk and holds its value from the start: the addresses recorded are not safe for the graph accepted. |
| GraphReserve.Reserve.IdleLeafMayOverrun | library/src/main/jni/ggml/src/ggml-alloc.c:1012-1101 | Whatever graph with such a leaf has been reserved, there is one of the same structure that is accepted at the addresses recorded, and whose leaf ends behind the end of its buffer. |
| GraphReserve.Reserve.RecordAllocs | library/src/main/jni/ggml/src/ggml-alloc.c:853-904 | The records of nodes, their sources and leafs are what the hash table says, with the sizes in their buffers. |
| GraphReserve.Reserve.FitBuffers | library/src/main/jni/ggml/src/ggml-alloc.c:906-949 | A buffer is kept exactly when it exists and all its chunks are at least max_size; otherwise it is allocated anew with those sizes. |
| GraphReserve.Reserve.ReserveFor | library/src/main/jni/ggml/src/ggml-alloc.c:828-952 | Plans, records and makes room: the plan is safe and inside the buffers; fails only when an allocator is exhausted. |
| GraphReserve.Reserve.NeedsRealloc | library/src/main/jni/ggml/src/ggml-alloc.c:1012-1053 | True exactly when node or leaf counts differ, or a node or source does not fit what is recorded. |
| GraphReserve.Reserve.InitAll | library/src/main/jni/ggml/src/ggml-alloc.c:1079-1098 | Every tensor the planner manages gets its recorded address. |
| GraphReserve.Reserve.AllocGraph | library/src/main/jni/ggml/src/ggml-alloc.c:1055-1101 | A graph that fits is placed at the recorded addresses without planning, inside the buffers and without overlap of live tensors; any other one, of whatever structure, is planned anew with a single buffer and refused with several. |
| HashSet.BitAfter | library/src/main/jni/ggml/src/ggml-impl.h:203-213 | Setting or clearing bit i of a 32-bit word changes the test of bit j exactly when i and j agree modulo 32. |
| HashSet.BitSet | library/src/main/jni/ggml/src/ggml-impl.h:207-209 | Setting a bit changes that bit of the whole set and no other. |
| HashSet.BitClear | library/src/main/jni/ggml/src/ggml-impl.h:211-213 | Clearing a bit changes that bit of the whole set and no other. |
| HashSet.FoundInItsSlot | library/src/main/jni/ggml/src/ggml-impl.h:253-266 | A key held in a slot is found in that slot. |
| HashSet.FindMeans | library/src/main/jni/ggml/src/ggml-impl.h:253-271 | Probing returns no slot exactly when all slots hold other keys, and otherwise a slot that holds the key exactly when the set contains it. |
| HashSet.InsertKeeps | library/src/main/jni/ggml/src/ggml-impl.h:294-313 | Putting a key where probing stopped keeps every probe chain free of gaps and no key held twice. |
| HashSet.SlotsAreStable | library/src/main/jni/ggml/src/ggml-impl.h:294-313 | Over every sequence of insertions a key keeps its slot, and is found there. |
| HashSet.SlotsAreDistinct | library/src/main/jni/ggml/src/ggml-impl.h:294-313 | Two keys in the set have the same slot exactly when they are the same key. |
| HashSet.TensorSet.Search | library/src/main/jni/ggml/src/ggml-impl.h:253-266 | The probing loop, on the stored words and keys, stops at the first slot that is free or holds the key, or after every slot. |
| HashSet.TensorSet.Find | library/src/main/jni/ggml/src/ggml-impl.h:253-266 | The loop over used bits and keys computes probing on the slots they stand for. |
| HashSet.TensorSet.Includes | library/src/main/jni/ggml/src/ggml-impl.h:268-271 | True exactly when the set contains the key. |
| HashSet.TensorSet.FindOrInsert | library/src/main/jni/ggml/src/ggml-impl.h:294-313 | Returns the key's slot and puts it there if it was in none; all other slots stay; keeps words and keys in step and the chains without gaps. |
| HashSet.TensorSet.Reset | library/src/main/jni/ggml/src/ggml.c:6115-6117 | Afterwards every slot is free, whatever the keys array still holds. |
| HashSet.HashSize | library/src/main/jni/ggml/src/ggml.c:6124-6149 | The binary search over the primes finds the least one that is enough; beyond them the size is the next odd number. |
| SchedAssign.Assigner.FromCurrent | library/src/main/jni/ggml/src/ggml-backend.cpp:789-853 | A tensor in memory goes to the first backend that can use it and run it (failing exactly when there is none), an input to the last backend, an operation where its first weight is or to the first backend that offers to take it from there. |
| SchedAssign.Assigner.PassOne | library/src/main/jni/ggml/src/ggml-backend.cpp:944-979 | After pass 1 every tensor of the graph has its first choice, every leaf is assigned, and everything in memory is on a backend that can use and run it; fails only on a tensor whose memory no backend can run it in. |
| SchedAssign.SweptSound | library/src/main/jni/ggml/src/ggml-backend.cpp:981-1059 | A sweep keeps assigned nodes runnable and in reach of their memory, and overwrites no assignment. |
| SchedAssign.Assigner.PassTwo | library/src/main/jni/ggml/src/ggml-backend.cpp:981-1059 | The four sweeps are down and up without the last backend, then down and up with it. Told by pass 1 alone: through a stretch of open nodes that a backend other than the last runs, an open node goes with the nearest assigned one before it; if that is on the last backend, or missing, with the nearest one after it; and to the last backend only where no other reaches it. Soundness is kept and only open nodes are filled in. |
| SchedAssign.SweepOfStretch | library/src/main/jni/ggml/src/ggml-backend.cpp:981-1059 | One sweep over a stretch of open nodes between two assigned ones: it fills exactly the nodes that the backend coming from the side it starts at runs, the last backend left out or not. |
| SchedAssign.SpreadGoesRight | library/src/main/jni/ggml/src/ggml-backend.cpp:981-1059 | The four sweeps together give every open node the backend the nearest assigned nodes on either side say, with all others before the last. |
| SchedAssign.MostUsableIsBest | library/src/main/jni/ggml/src/ggml-backend.cpp:1075-1096 | The backend chosen for an open node runs it and can use at least as many of its sources where they are as any other that does, more than any before it; there is none exactly when no backend runs the node. |
| SchedAssign.Assigner.BestBackend | library/src/main/jni/ggml/src/ggml-backend.cpp:1075-1096 | The loop over backends computes that choice. |
| SchedAssign.FirstTakeOverIsFirst | library/src/main/jni/ggml/src/ggml-backend.cpp:1097-1118 | The upgrade goes to a backend of the same buffer type that runs the node and can use all its sources where they are, with none such before it, or leaves the node where it is. |
| SchedAssign.Assigner.Upgrade | library/src/main/jni/ggml/src/ggml-backend.cpp:1097-1118 | The loop over higher-priority backends and sources computes the first one with the same buffer type that runs the node and can use all its sources. |
| SchedAssign.Assigner.PassThree | library/src/main/jni/ggml/src/ggml-backend.cpp:1061-1120 | Afterwards every node that computes has a backend that runs it; assigned nodes only move to higher priority within one buffer type, and one in memory is in reach of it unless moving up has lost it; views and leafs are untouched; the result is that of the two choices, node by node. |
| SchedAssign.OpenViewFollows | library/src/main/jni/ggml/src/ggml-backend.cpp:1126-1146 | A tensor still open in pass 4 is a view, and its root is placed. |
| SchedAssign.Assigner.PassFour | library/src/main/jni/ggml/src/ggml-backend.cpp:1122-1152 | Everything the graph uses ends with a backend: exactly the open tensors go with their roots, and the assertion that ends the pass never fails. |
| SchedAssign.Assigner.Assign | library/src/main/jni/ggml/src/ggml-backend.cpp:944-1152 | Passes 1 to 4: every node runs on a backend that supports it; fails only on a tensor in memory no backend can run it in; otherwise the result is that of the passes one after the other. |
| SchedExact.OutcomeAssigned | library/src/main/jni/ggml/src/ggml-backend.cpp:944-1152 | Whatever pass 1 may choose, what passes 2, 3 and 4 make of it is an assignment as it should be. |
| SchedExact.OneNodeIsLost | library/src/main/jni/ggml/src/ggml-backend.cpp:1097-1118 | For any two backends that allocate the same buffer type of which only the later one can use some type: a node in memory of that type, which passes 1 and 2 give to the later one, is moved by pass 3 to the one that cannot use its memory. |
| SchedExact.UpgradeKeepsReachExactly | library/src/main/jni/ggml/src/ggml-backend.cpp:1061-1120 | Exact condition: no upgrade takes a node out of reach of its memory, whatever the graph, if and only if each backend that shares a buffer type with one after it can use all that the latter can; the same already for the first upgrade after pass 2. |
| SchedSplit.CopyIsEarly | library/src/main/jni/ggml/src/ggml-backend.cpp:1261-1279 | A source that a split cannot use where it is has its value before the split starts, unless it is a view of a node moved up out of reach of its memory: the copy made at the start is in time. |
| SchedSplit.LocatedWithRoot | library/src/main/jni/ggml/src/ggml-backend.cpp:1138-1140 | A source whose root is a node is on the root's backend, or in memory that backend can use, when moving up has lost no node that is viewed. |
| SchedSplit.Splitter.NeedsNewSplit | library/src/main/jni/ggml/src/ggml-backend.cpp:1182-1210 | True exactly when some source is a weight the split's backend cannot use, or needs a copy the full split has no room for. |
| SchedSplit.Splitter.OpenSplitFor | library/src/main/jni/ggml/src/ggml-backend.cpp:1212-1226 | Opens a split exactly when the node is on another backend or the current split with inputs cannot take it. |
| SchedSplit.PlanFromRight | library/src/main/jni/ggml/src/ggml-backend.cpp:1182-1285 | Whatever node the loop has come to with a right plan, what it makes of the rest of the graph is a right plan. |
| SchedSplit.Splitter.SplitGraph | library/src/main/jni/ggml/src/ggml-backend.cpp:1154-1285 | The splits are a contiguous partition of the nodes; each rewritten source is on the split's backend, in memory it can use, or a copy filled by this or an earlier split, and no copy is made twice; the plan is determined node by node, and it fails exactly when a split would get more than 30 inputs. |
| SchedBoundary.PlanOfSplitsWell | library/src/main/jni/ggml/src/ggml-backend.cpp:1182-1226 | In the plan of pass 5 a split begins only at a node that computes and that is on another backend than the split before, or has a weight that one cannot use, or needs a 31st copy; a node with such a weight goes on in a split only if nothing has been copied for it yet; no split has more than 30 inputs. |
| SchedBoundary.PlanFailsExactly | library/src/main/jni/ggml/src/ggml-backend.cpp:1193-1276 | Exact condition: pass 5 fails if and only if it comes to a node whose sources to be copied are, with the inputs the split already has unless the node has to begin one, more than 30. |
| SchedRun.RunGraphIsRun | library/src/main/jni/ggml/src/ggml-backend.cpp:1445-1585 | Running a graph as the scheduler sees it is running it with one private buffer a tensor, as the memory planner sees it. |
| SchedRun.CopiedOnly | library/src/main/jni/ggml/src/ggml-backend.cpp:1458-1478 | Copying a split's inputs fills exactly their copies with the sources' values and changes nothing else. |
| SchedRun.SourceGivesValue | library/src/main/jni/ggml/src/ggml-backend.cpp:1453-1585 | Through whatever its split reads a source, a node gets the value the source has in the original graph. |
| SchedRun.SplitsKeepStep | library/src/main/jni/ggml/src/ggml-backend.cpp:1453-1585 | After every split, the graph's own tensors hold what running the nodes so far in the original graph gives, and filled copies hold final values. |
| SchedRun.SplittingPreservesMeaning | library/src/main/jni/ggml/src/ggml-backend.cpp:1453-1585 | After all splits every tensor of the graph has the value of running the graph as it was, for any operations and whatever copies held before, when no view looks into a node that moving up has put out of reach of its memory. |
| SchedExact.CopyComesLate | library/src/main/jni/ggml/src/ggml-backend.cpp:944-1585 | Without that: for any two backends that allocate the same buffer type of which only the later one can use some type, a graph of three nodes and a weight for which the five passes make a plan that copies a view before its root is computed, and operations for which the result is another. |
| SchedExact.SchedulesPreserveMeaningExactly | library/src/main/jni/ggml/src/ggml-backend.cpp:944-1585 | Exact condition: what the five passes make of a graph computes what the graph does, whatever the graph, the operations and the inputs, if and only if each backend that shares a buffer type with one after it can use all that the latter can. |
| SchedRun.Schedule | library/src/main/jni/ggml/src/ggml-backend.cpp:925-1285 | The five passes together give an assignment and a valid plan, both determined by the passes, whose splits begin where they have to; they fail only on a tensor no backend can run in its memory, or at a node for which its split has no room. |
| SchedMemory.ListNodes | library/src/main/jni/ggml/src/ggml-backend.cpp:1324-1352 | The loops list, split by split, a dependency on each input, the copy of it, and the nodes, with the backend each is planned for. |
| SchedMemory.GraphCopyWellFormed | library/src/main/jni/ggml/src/ggml-backend.cpp:1302-1389 | The graph handed to the memory planner is one it can take: no tensor is listed twice, and everything a node, a dependency or a copy uses is there before it. |
| SchedMemory.NodesInStep | library/src/main/jni/ggml/src/ggml-backend.cpp:1453-1585 | With one buffer a tensor the graph with copies runs as the splits do, node for node and copy for copy. |
| SchedMemory.DependencyHolds | library/src/main/jni/ggml/src/ggml-backend.cpp:1334-1340 | In planned memory the dependency keeps every input as it has to be until its copy is made. |
| SchedMemory.EveryNodeInPlannedMemory | library/src/main/jni/ggml/src/ggml-backend.cpp:1302-1585 | Composition: the splits, run in memory planned for the graph with copies and with the copies made from that memory, give every node of the graph the value that running the original graph gives it. |
| SchedMemory.OutputsInPlannedMemory | library/src/main/jni/ggml/src/ggml-backend.cpp:1302-1585 | And every output of the graph still holds its value at the end. |
| SchedWhole.CopyTensors | library/src/main/jni/ggml/src/ggml-backend.cpp:1261-1279 | The loops over splits and inputs build the tensors of the graph with copies: each copy laid out as its input, with a dependency on it. |
| SchedWhole.CopyIsValidJob | library/src/main/jni/ggml/src/ggml-backend.cpp:1302-1389 | The graph with copies, and the buffers listed for its nodes and leafs, is one the memory planner can take. |
| SchedWhole.ScheduleAndPlan | library/src/main/jni/ggml/src/ggml-backend.cpp:925-1585 | All of it: five passes, the graph with copies, and the memory planner. When no view looks into a node that moving up has put out of reach of its memory, then for any operations every node of the graph holds its value right after it has run in the memory planned, and outputs hold theirs to the end; the only failures are a tensor no backend can run in its memory, a split with 30 inputs, and an exhausted allocator. |
| Utf8.Decode | library/src/main/jni/src/whisper.cpp:5476-5530 | The byte loop, up to the first NUL, computes the two-phase decoding of section 3 of RFC 3629 with its treatment of unfinished and invalid texts. |
| Utf8.DecodeFeeds | library/src/main/jni/src/whisper.cpp:5476-5530 | On a text in which every byte is one the state expects, decoding is feeding bytes one at a time. |
| Utf8.FeedConcat | library/src/main/jni/src/whisper.cpp:5476-5530 | Feeding a text in two parts gives the points of both and the last state; a text is clean exactly when its parts are, one after the other. |
| Utf8.CutsDoNotMatter | library/src/main/jni/src/whisper.cpp:5476-5530 | However a clean text is cut into pieces, threading the partial state yields the same code points and the same final state. |
| Utf8Cuts.CutsDoNotShowExactly | library/src/main/jni/src/whisper.cpp:5476-5530 | Exact condition, for all bytes before a NUL and all states: every way to cut them gives what the whole gives if and only if every byte is one the state expects, or no sequence is open and there are only continuation bytes, or the open sequence is broken off and only continuation bytes follow. |
| Utf8Cuts.TextCutsDoNotShowExactly | library/src/main/jni/src/whisper.cpp:5476-5530 | For every text without NUL this is exactly when the decoder, which ends each piece at its first NUL, reads it alike however it is cut. |
| Utf8Cuts.CutsMayShow | library/src/main/jni/src/whisper.cpp:5518-5522 | A concrete text that is read differently when cut: inside a text the high bits of continuation bytes are not checked, after a cut they are. |
| Utf8.DecodedPlausible | library/src/main/jni/src/whisper.cpp:5476-5530 | The states decoding leaves have at most three bytes missing, and no more bits than the bytes so far can have given. |
| Utf8.DecodeUndoesEncode | library/src/main/jni/src/whisper.cpp:5476-5530 | Decoding undoes encoding for every sequence of code points without NUL, and leaves nothing unfinished. |
| GrammarRules.MatchChar | library/src/main/jni/src/whisper.cpp:5543-5565 | The walk over a character class decides membership of the regular or inverse class, and ends at the element after it. |
| GrammarRules.RefDerives | library/src/main/jni/src/whisper.cpp:5632-5646 | A reference derives any word of an alternate of its rule followed by any word of what comes after it. |
| GrammarStacks.ExpandingLessens | library/src/main/jni/src/whisper.cpp:5631-5658 | Without left recursion (nullable prefixes included), replacing a reference on top by an alternate makes a stack's remaining work smaller: the simulator stops. |
| GrammarStacks.AdvanceSettles | library/src/main/jni/src/whisper.cpp:5619-5670 | Advancing a stack gives at least one stack, and every stack it gives is empty or has a character class on top. |
| GrammarStacks.AdvanceDerives | library/src/main/jni/src/whisper.cpp:5619-5670 | Advancing keeps what a stack derives, word for word. |
| GrammarStacks.AdvanceStack | library/src/main/jni/src/whisper.cpp:5619-5670 | The recursion over alternates appends, in order, all stacks the given one can become. |
| GrammarStacks.AcceptDerives | library/src/main/jni/src/whisper.cpp:5676-5702 | Some stack derives a character followed by w exactly when, after reading the character, some stack derives w. |
| GrammarStacks.Accept | library/src/main/jni/src/whisper.cpp:5676-5702 | The loop over stacks gives the stacks after a character, each settled. |
| GrammarStacks.Init | library/src/main/jni/src/whisper.cpp:5776-5814 | The loop over the alternates of the start rule gives the initial stacks. |
| GrammarStacks.DerivesCompletions | library/src/main/jni/src/whisper.cpp:5676-5702 | After any word has been read, the stacks derive exactly the words that complete it to a word of the start rule. |
| GrammarStacks.RecognisesLanguage | library/src/main/jni/src/whisper.cpp:5676-5702 | The simulator recognises exactly the grammar's language: the empty stack is among the stacks after a word exactly when the start rule derives it. |
| GrammarTokens.MatchPartialChar | library/src/main/jni/src/whisper.cpp:5570-5616 | The loop decides whether the class meets the range of completions of an unfinished sequence, negated for an inverse class. |
| GrammarTokens.CompletionMeaning | library/src/main/jni/src/whisper.cpp:5578-5593 | The range computed from an unfinished sequence is exactly the characters that some further bytes complete it to, those that could have been written in fewer bytes left out; there are none exactly when the sequence is refused at once. |
| GrammarTokens.PartialMatchMeaning | library/src/main/jni/src/whisper.cpp:5570-5616 | A regular class matches an unfinished sequence exactly when some bytes complete it to a character of the class. |
| GrammarTokens.InversePartialMatchMeaning | library/src/main/jni/src/whisper.cpp:5606-5607 | An inverse class matches only when every character that bytes can complete the sequence to satisfies it: it is conservative. |
| GrammarTokens.SortOut | library/src/main/jni/src/whisper.cpp:5727-5740 | One walk sorts candidates into those rejected here and those passed on with their pointers advanced, in order. |
| GrammarTokens.RejectsTogether | library/src/main/jni/src/whisper.cpp:5744-5757 | What is rejected here, with what is rejected further on put back by one code point, is what the stack rejects, each candidate as often as it was there. |
| GrammarTokens.RejectForStack | library/src/main/jni/src/whisper.cpp:5709-5758 | A stack rejects exactly the candidates it does not let survive, with their pointers restored. |
| GrammarTokens.RejectCandidates | library/src/main/jni/src/whisper.cpp:5760-5774 | Passing rejects from stack to stack leaves exactly the candidates that survive in no stack; with no stack nothing is rejected. |
| GrammarDecoding.SurvivalIsAcceptance | library/src/main/jni/src/whisper.cpp:5676-5774 | Looking ahead through a candidate agrees with accepting its code points one after the other and then asking whether a stack can go on. |
| GrammarDecoding.WholeTokenSurvives | library/src/main/jni/src/whisper.cpp:5676-5774 | A fully decoded candidate survives exactly when folding accept over it leaves a stack; an invalid one never does. |
| GrammarDecoding.NeededTokenSurvives | library/src/main/jni/src/whisper.cpp:5816-5858 | No candidate is rejected with which the text can still be completed to a word of the language. |
| GrammarDecoding.PartialTokenSurvivesExactly | library/src/main/jni/src/whisper.cpp:5676-5774 | A candidate that stops inside a character survives exactly when some stack after it has a regular class on top that some completion is in, or an inverse class that there are completions for and every one satisfies. |
| GrammarDecoding.NeededPartialTokenSurvives | library/src/main/jni/src/whisper.cpp:5816-5858 | Nor one that stops inside a character when some bytes complete it to one with which the text can be completed, if the class that reads that character is regular, or inverse and satisfied by every completion. |
| GrammarDecoding.StatesPlausible | library/src/main/jni/src/whisper.cpp:5860-5882 | The decoder states that tokens leave are ones those lemmas speak of. |
| GrammarDecoding.OnlyTheTextMatters | library/src/main/jni/src/whisper.cpp:5860-5882 | The grammar state after tokens that spell a clean text (each token up to its first NUL) depends on the text alone, not on token boundaries; no token begins with the two bytes "[_". |
| GrammarDecoding.TokensSpellLanguage | library/src/main/jni/src/whisper.cpp:5860-5882 | Whatever tokens spell the encoding of a word, none of which begins with the two bytes "[_", the empty stack is among the stacks after them exactly when the word is in the language. |
| GrammarDecoding.AllowedTokenCanBeAccepted | library/src/main/jni/src/whisper.cpp:5816-5882 | A token is not penalised exactly when accepting its code points up to the first 0 leaves a stack that can go on; so exactly when accepting it does, if none is 0. |
| GrammarAgreement.AgreesExactly | library/src/main/jni/src/whisper.cpp:5816-5882 | Exact condition, for every text that does not begin with the two bytes "[_" and every state of the decoder: whatever the grammar and the stacks, a token is not penalised exactly when accepting it leaves a stack that can go on, if and only if it decodes to no code point 0 or ends in a sequence nothing completes. |
| GrammarAgreement.ZeroIsAllowedAndStuck | library/src/main/jni/src/whisper.cpp:5727-5730 | After the byte 0xC0 the token 0x80 decodes to code point 0: it is not penalised, and accepting it leaves no stack, whatever class that does not hold 0 is on top. |
| GrammarAgreement.NeededPartialTokenRejected | library/src/main/jni/src/whisper.cpp:5606-5607 | With the grammar of one character other than U+00E9, the token 0xC3, with which the encoding of U+00EA begins, is penalised. |
| GrammarDecoding.Grammar.AcceptToken | library/src/main/jni/src/whisper.cpp:5860-5882 | Skips a token that begins with the two bytes "[_", and only such a one, and does nothing without rules or stacks; otherwise the stacks have read the token's code points and the partial state is the decoder's. |
| GrammarDecoding.Grammar.SuppressInvalid | library/src/main/jni/src/whisper.cpp:5816-5858 | Takes the penalty off the logit of each token the grammar cannot take, once, and leaves every other logit alone. |
| KvCache.Cache.Search | library/src/main/jni/src/whisper.cpp:1033-1057 | Terminates from any head; finds room for n tokens exactly when some n contiguous cells are free: the first run from head on, or the very first where there is none behind it. |
| KvCache.Cache.FindSlot | library/src/main/jni/src/whisper.cpp:1019-1068 | Succeeds exactly when n contiguous cells are free, takes the first such run from head on (from the front if there is none), writes only those, leaves all cells alone on failure, and keeps "a position exactly when in a sequence". |
| KvCache.Cache.CellMax | library/src/main/jni/src/whisper.cpp:1071-1079 | One past the last cell in use, at least 1. |
| KvCache.Cache.SetN | library/src/main/jni/src/whisper.cpp:2876-2877 | The least padded number of cells, capped by the size, that covers every cell in use. |
| KvCache.Cache.SeqRm | library/src/main/jni/src/whisper.cpp:1091-1119 | Takes the sequence (every one, for a negative id) off exactly the cells with positions in the range and no other off any; a cell left in none has no position; head moves to the first cell freed, if there is one. |
| KvCache.Cache.SeqCp | library/src/main/jni/src/whisper.cpp:1121-1137 | Puts the target sequence on exactly the cells of the source sequence with positions in the range, and changes nothing else. |
| KvCache.RemovedTidy | library/src/main/jni/src/whisper.cpp:1091-1119 | Removing a sequence keeps "a position exactly when in a sequence". |
| SharedHistory.AttendsToHistory | library/src/main/jni/src/whisper.cpp:2920-2930 | A query of a sequence attends, through the mask over the shared cache, to exactly the keys of its own history up to its position. |
| SharedHistory.BatchIsAlone | library/src/main/jni/src/whisper.cpp:2920-2930 | In every layer each token of a batch has the activation it would have had its sequence been computed on its own. |
| SharedHistory.PositionsAfter | library/src/main/jni/src/whisper.cpp:1060-1065 | After a batch got its slot each sequence's cells hold positions 0 up to its new length once each. |
| SharedHistory.StoredIsCarried | library/src/main/jni/src/whisper.cpp:2866-2877 | What the batch stored makes the cache carry every sequence with its new tokens. |
| SharedHistory.AloneOfPrefix | library/src/main/jni/src/whisper.cpp:2920-2930 | What a sequence computes for a prefix does not depend on the tokens after it. |
| BeamShuffle.StageOne | library/src/main/jni/src/whisper.cpp:7314 | Copying a parent's cells to a staging id adds that id to exactly the cells the parent had before any move. |
| BeamShuffle.MoveOne | library/src/main/jni/src/whisper.cpp:7327-7329 | Remove, copy from staging, remove staging: one decoder takes over from its staging id and no other decoder's cells change. |
| BeamShuffle.MovedIsTookOver | library/src/main/jni/src/whisper.cpp:7292-7330 | After both loops each active decoder has the cells its parent had before, all at the same time, and no staging id is left. |
| BeamShuffle.CarriesSource | library/src/main/jni/src/whisper.cpp:7292-7330 | After the shuffle a decoder carries the history its source carried. |
| SharedDecoders.BuildMask | library/src/main/jni/src/whisper.cpp:2908-2937 | Entry (j, i) of the mask lets token j see cell i exactly when the cell has the token's sequence and no later position. |
| SharedDecoders.RunGraph | library/src/main/jni/src/whisper.cpp:2911-2937 | Layer after layer, storing keys and attending through the mask computes the layered activations of the batch. |
| SharedDecoders.NextCandidate | library/src/main/jni/src/whisper.cpp:7299-7307 | Takes the candidate at the cursor, starting over at the end, and skips equal ones after it except in the first iteration. |
| SharedDecoders.CopyCarries | library/src/main/jni/src/whisper.cpp:7180-7188 | Copying decoder 0's cells gives another decoder the prompt decoder 0 carries. |
| SharedDecoders.Window.Start | library/src/main/jni/src/whisper.cpp:7155-7191 | After the prompt has been decoded and shared, every decoder carries it and has the logits it would have on its own; fails only without a free slot. |
| SharedDecoders.Window.DecodeInternal | library/src/main/jni/src/whisper.cpp:2850-2960 | Decoding a batch extends each sequence's history by its tokens; every output is what the sequence alone would give; fails only without a free slot, changing no history. |
| SharedDecoders.Window.Shuffle | library/src/main/jni/src/whisper.cpp:7290-7330 | Each active decoder gets its candidate in turn, and carries what the candidate's decoder carried. |
| SharedDecoders.Window.NextBatch | library/src/main/jni/src/whisper.cpp:7441-7462 | The last token of each active decoder, in order, at the next position. |
| SharedDecoders.Window.Iterate | library/src/main/jni/src/whisper.cpp:7197-7467 | At the top of iteration i every active decoder has i tokens, carries prompt and tokens, and has the logits it would have on its own; so again at the top of i + 1, with the tokens sampled for it. |
| SharedDecoders.Window.DecodeWindow | library/src/main/jni/src/whisper.cpp:7197-7524 | Over a whole window, whatever is sampled: the same at every iteration until all decoders have stopped or the cache has no room. |
| Fft.QuartersAreRoots | library/src/main/jni/src/whisper.cpp:3002-3021 | The laws asked of the table hold of the quarter turns. |
| Fft.SumSplits | library/src/main/jni/src/whisper.cpp:3073-3085 | A sum falls into one over even and one over odd places. |
| Fft.LowBin | library/src/main/jni/src/whisper.cpp:3088-3097 | Bin k of the transform is that of the even samples plus the turned one of the odd samples. |
| Fft.HighBin | library/src/main/jni/src/whisper.cpp:3099-3100 | Bin k + N/2 is the same with a minus sign. |
| Fft.Dft | library/src/main/jni/src/whisper.cpp:3038-3054 | The naive loops compute every bin and write nothing else. |
| Fft.Gather | library/src/main/jni/src/whisper.cpp:3073-3083 | Every second sample is copied behind the samples, which stay. |
| Fft.Combine | library/src/main/jni/src/whisper.cpp:3087-3101 | The butterflies, in place over the front of the output buffer, turn the two half transforms stored behind into the whole one. |
| Fft.Transform | library/src/main/jni/src/whisper.cpp:3060-3102 | For every N dividing the table size and any table obeying the laws of roots of unity, the recursive transform leaves the bins of the naive one, keeps the samples, and stays inside 2N numbers of input and 6N of output (the caller has 8N). |
| Dtw.StaysInside | library/src/main/jni/src/whisper.cpp:8705-8728 | Inside the table costs are finite and moves never lead to a border before the first cell. |
| Dtw.TracedIsPath | library/src/main/jni/src/whisper.cpp:8742-8758 | The traced path goes from (0,0) in unit steps, and what it costs is the entry of the table. |
| Dtw.PathIsShort | library/src/main/jni/src/whisper.cpp:8731 | A path has at most N + M - 1 cells: the backtrace table has room. |
| Dtw.ChosenIsLeast | library/src/main/jni/src/whisper.cpp:8711-8722 | The cell picks a least neighbour exactly when it is not the case that c0 == c1 < c2. |
| Dtw.TableIsLeast | library/src/main/jni/src/whisper.cpp:8705-8728 | Without such ties no path is cheaper than the table says. |
| Dtw.LeastExactlyWithoutBadTies | library/src/main/jni/src/whisper.cpp:8705-8728 | No path to any cell is cheaper than the table says exactly when no cell has a tie c0 == c1 < c2. |
| Dtw.NotAlwaysLeast | library/src/main/jni/src/whisper.cpp:8713-8722 | A concrete matrix with such a tie whose traced path costs 1 although one of cost 0 exists. |
| Dtw.FillTables | library/src/main/jni/src/whisper.cpp:8695-8728 | The loops over columns and rows fill the trace with the moves of the recurrence. |
| Dtw.Backtrace | library/src/main/jni/src/whisper.cpp:8730-8771 | Writing rows from the end of the table and clipping gives the traced path in order. |
| Dtw.LeastPathExactly | library/src/main/jni/src/whisper.cpp:8705-8771 | Exact condition for the path returned: it is of least cost if and only if some path of least cost has no bad tie on it. |
| Dtw.Align | library/src/main/jni/src/whisper.cpp:8690-8774 | The alignment is a path over the whole matrix of at most N + M - 1 cells, costs cost[N][M], and is of least cost exactly when some path of least cost has no bad tie on it. |
| Dtw.PlaceTimes | library/src/main/jni/src/whisper.cpp:8936-8963 | When the path has one row more than there are text tokens, each text token gets the time at which the path enters the row after its own; other tokens are untouched. |
| Dtw.TimesInOrder | library/src/main/jni/src/whisper.cpp:8936-8963 | Later text tokens do not get earlier times. |
| Vad.Window | library/src/main/jni/src/whisper.cpp:5249-5316 | One window of the state machine keeps: segments in order; each starts at a loud window and ends at a quiet one or for being too long; every loud window accounted for. |
| VadMachine.StepTimely | library/src/main/jni/src/whisper.cpp:5249-5316 | One window, whatever its probability, keeps: no segment longer than the maximum and one more window, nor the open one; at least one window between segments. |
| Vad.Detect | library/src/main/jni/src/whisper.cpp:5249-5321 | Raw segments are in order, not empty, start in loud windows, end in quiet ones, where too long, or with the audio; none is longer than the maximum and one more window, and there is at least one window between two. Silence that is long enough ends them, every end has a reason, and what is too long is split at its last pause (`VadSilence.FoundSettled`). Every loud window is in one, unless it was in speech that silence ended too soon to keep it, or a segment was cut at it. |
| VadSilence.FoundSettled | library/src/main/jni/src/whisper.cpp:5249-5321 | Exact condition for silence: of quiet windows for min_silence_duration a segment has something if and only if it was cut there for its length, or goes on from before a window in them at which the one before became too long. Every segment ends in silence that is long enough, at a pause or a cut because it is too long, or with the audio; and one that is too long is never cut where it has a pause, nor split at a pause that is not its last. |
| VadSilence.MeetsExactly | library/src/main/jni/src/whisper.cpp:5265-5314 | That condition for one segment and one silence. |
| VadSilence.StepReasoned | library/src/main/jni/src/whisper.cpp:5249-5316 | One window keeps a reason for every end, and for everything the machine remembers: how long silence has lasted, the last pause, and where speech went on. |
| VadSilence.SilenceMayNotEnd | library/src/main/jni/src/whisper.cpp:5273-5296 | Probabilities for which silence of min_silence_duration lies in the midst of a segment that is nowhere cut: the segment before became too long in it, and temp_end started anew. |
| Vad.Merge | library/src/main/jni/src/whisper.cpp:5323-5343 | Afterwards every gap is at least 200 ms, every sample in a segment still is, starts and ends are those of raw segments, and no gap of 200 ms or more has been closed. |
| Vad.FilterMembers | library/src/main/jni/src/whisper.cpp:5345-5354 | Filtering keeps exactly the segments that are long enough. |
| Vad.FilterInOrder | library/src/main/jni/src/whisper.cpp:5345-5354 | Filtering keeps order. |
| Vad.PadAll | library/src/main/jni/src/whisper.cpp:5370-5407 | Segments stay in order inside the audio; each gap gives either side the padding or half of itself, the outer edges what there is room for. |
| Vad.RoundedInOrder | library/src/main/jni/src/whisper.cpp:4455-4457 | Rounded to centiseconds the segments are still in order and inside the audio. |
| Vad.Segments | library/src/main/jni/src/whisper.cpp:5249-5411 | All passes together: segments in centiseconds in order and inside the audio, made of raw segments as `Vad.Detect` promises them, none of them joined over 200 ms or more; each loud window is inside one unless its speech was too short or it ended a segment cut for length; one that is not several joined lasts at most the maximum, one more window and the padding. |
| VadLimits.MaximumKeptExactly | library/src/main/jni/src/whisper.cpp:5249-5343 | Exact condition: no merged segment of any sequence of probabilities is longer than the maximum and one more window if and only if a window is at least as long as the gaps that merging closes. |
| VadLimits.MergedTooLong | library/src/main/jni/src/whisper.cpp:5323-5343 | With shorter windows, loud throughout, the gap of one window behind a cut is closed again, and the segment is too long. |
| VadLimits.PaddedWithinSeconds | library/src/main/jni/src/whisper.cpp:5210-5220 | What the maximum is computed for: when it is used as given, a padded segment that is not several joined lasts at most the seconds asked for, and with windows that long none lasts longer. |
| TimeMap.Points | library/src/main/jni/src/whisper.cpp:6714-6748 | Ends and interior points of a kept part lie on one line, are consistent with each other, and long parts have a point every 20 cs. |
| TimeMap.BuildTable | library/src/main/jni/src/whisper.cpp:6699-6776 | For every ordered segment list the table is consistent (no later processed time has an earlier original time), has both ends of every kept segment, and stays inside first start and last end. |
| TimeMap.KeptExactly | library/src/main/jni/src/whisper.cpp:6707-6717 | What is kept of a segment are exactly its samples before the last one of the audio, with those of the overlap behind it unless it is the last segment. |
| TimeMap.FirstKept | library/src/main/jni/src/whisper.cpp:6705-6776 | In the processed audio the first segment of which anything is kept begins at 0. |
| TimeMap.NextKept | library/src/main/jni/src/whisper.cpp:6748-6770 | In the processed audio the next segment of which anything is kept begins behind the one before and 0.1 s of silence. |
| TimeMap.Unique | library/src/main/jni/src/whisper.cpp:6784-6792 | After sorting, one entry stays for every processed time. |
| TimeMap.TableIsLookup | library/src/main/jni/src/whisper.cpp:6778-6792 | Whichever of tied entries sorting put first, the table is strictly increasing in processed and non-decreasing in original time. |
| TimeMap.Bracket | library/src/main/jni/src/whisper.cpp:7938-7963 | A lookup between two entries is on the line between them and never leaves their bracket in spite of truncation. |
| TimeMap.ExactAtPoints | library/src/main/jni/src/whisper.cpp:7946-7949 | Lookups are exact at table points. |
| TimeMap.Monotone | library/src/main/jni/src/whisper.cpp:7925-7964 | Lookups never run backwards. |
| TimeMap.InsideTheAudio | library/src/main/jni/src/whisper.cpp:7925-7964 | Every lookup lies between the first segment's start and the last one's end. |
| TimeMapRun.MapTimes | library/src/main/jni/src/whisper.cpp:6648-6792 | From probabilities to lookups: whatever the probabilities and however sorting orders equal times, lookups never run backwards and stay inside the audio, and the ends of every kept segment are times of the table. |
| DecodeLoop.MaskTimestamps | library/src/main/jni/src/whisper.cpp:6268-6308 | On top of what is masked already, exactly the tokens the timestamp rules forbid are masked, and all text when timestamps are preferred. |
| DecodeLoop.Follow | library/src/main/jni/src/whisper.cpp:7340-7416 | The whole new state of a decoder after its last token: failed for going back in time, completed, failed, or going on with its last timestamp. |
| DecodeLoop.StillNeverBack | library/src/main/jni/src/whisper.cpp:6300-6308 | A token the rules do not forbid is no timestamp before the last one. |
| DecodeLoop.StillPaired | library/src/main/jni/src/whisper.cpp:6268-6287 | After a leading timestamp or two in a row the rules allow no third; after one behind text, no text. |
| DecodeLoop.UnmaskedKeepsRails | library/src/main/jni/src/whisper.cpp:7353-7367 | A token that was not forbidden never triggers the failure for going back in time. |
| DecodeLoop.DecodeWindow | library/src/main/jni/src/whisper.cpp:7197-7467 | Over a whole window, for any logits: if the sampler picks nothing masked, timestamps never decrease and keep to pairs, the branch for going back in time is never taken, and a decoder with a result fails in the last iteration or not at all; in any case the window moves on by at least 2, and the positions of its batches are consecutive. |
| DecodeResults.WindowResult | library/src/main/jni/src/whisper.cpp:7340-7416 | Of a decoder that has been through a window, told by its tokens: no token but the last ends the window; whether it failed, completed or is still going; that its result ends with the last timestamp; and how far the window moves on. |
| DecodeResults.KeptMark | library/src/main/jni/src/whisper.cpp:7544-7557 | Cutting the tokens off behind the result loses no timestamp: the last one is the same. |
| DecodeResults.ForbiddenExactly | library/src/main/jni/src/whisper.cpp:6268-6308 | Of tokens that keep the rules, the next one is forbidden exactly when it would break the pairing, go back in time, or begin with a timestamp that is too late. |
| DecodeResults.FirstMarkIsEarly | library/src/main/jni/src/whisper.cpp:6290-6298 | A window whose picks are not masked does not begin with a timestamp later than max_initial_ts. |
| DecodeLoop.CarryPrompt | library/src/main/jni/src/whisper.cpp:6937-6949 | The carried prompt is the longest suffix of the initial prompt inside the limit. |
| DecodeLoop.BuildPrompt | library/src/main/jni/src/whisper.cpp:7101-7125 | The prompt is marker, carried tokens, the latest rolling tokens that fit, and init tokens; it has at most max_prompt_ctx tokens before the init tokens. |
| DecodeAttempts.Attempt | library/src/main/jni/src/whisper.cpp:7098-7467 | At any temperature the prompt is built within its budget, each decoder runs through the window on its own, and prompt and token batches, as many as the longest run needs, stay inside n_text_ctx positions. |
| DecodeAttempts.ContextIsFilled | library/src/main/jni/src/whisper.cpp:7197-7467 | The bound is reached: for every text context of at least 10 positions there are a setup and picks whose last batch is at its last position (the one before it if their number is odd). |
| DecodeAttempts.Rank | library/src/main/jni/src/whisper.cpp:7524-7557 | Decoders that have not failed are cut to their results and fail if those repeat themselves; the best one is the first with the highest score, and stays what it was if none is ranked. |
| DecodeAttempts.Attempts | library/src/main/jni/src/whisper.cpp:7045-7584 | Temperatures are tried one after the other: after every one but the last the best decoder had failed, had more than 32 tokens that repeat themselves, or was unlikely; after the last it had not, or there is no temperature left. It is the leader of the last attempt that ranked any, and has the track of the last attempt wide enough to have it, which may be an earlier one; the prompt is that of the last attempt; no attempt leaves the text context. |
| DecodeAttempts.LeftOverIsBest | library/src/main/jni/src/whisper.cpp:7045-7588 | A setup in which the second of two attempts has one decoder less and ranks none: the track used is one that only the first attempt had. |
| DecodeAttempts.Windows | library/src/main/jni/src/whisper.cpp:7008-7750 | Every window, from the first seek to the last: the next one begins 30 s on, or at the end of the audio, when the tokens kept end with a timestamp right behind text; otherwise at the last timestamp among the tokens, or 30 s on where none is wanted or there is none. History is dropped for the last 5 s, and rolls on from prompt and text. Whatever is picked and however often a window is tried again, each pass moves on by at least 2, so the loop ends, with nothing left worth decoding; no batch of any attempt at any window has a position outside n_text_ctx. |

## Left out

Memory planner
- Tensor kernels: operations are arbitrary functions of the bytes of their sources; a node reads all of them before it writes, and padding bytes are left in any state.
- Graphs are topologically ordered, inputs and leafs have no operation, views look into tensors that are no views, and a view used as a source is a node with an operation or a view of external memory. A node without an operation that is no input is filled from outside when its turn comes.
- Writes through views are part of the comparison with private buffers, not of plain evaluation.
- Sizes are positive and at most SIZE_MAX/2 after rounding: with size 0 the allocator can leave empty free blocks.
- That a node is no larger than a source of equal layout is asserted by the source and is a hypothesis of `ValidJob`; in `SchedWhole` it follows from tensors of equal layout having equal sizes.
- The hash table behind the planner is `HashSet`; the planner itself indexes its records by tensor.
- Which buffers share an allocator is a parameter; tensors with a buffer but no data count as external; `node_buffer_ids == NULL` is the sequence of zeros.
- Failure to allocate a backend buffer, and the size query without allocation.

Hash set
- `ggml_hash_insert`, which aborts on a key that is there: it shares its probing loop with `ggml_hash_find_or_insert`.

Scheduler
- One copy (`n_copies == 1`), no user assignments, no writes through views, no graph inputs that are views; leafs have memory or are inputs; the last backend supports every operation.
- That every backend can use the buffers it allocates is asserted when a scheduler is made, and a hypothesis of `SchedExact.SchedulesPreserveMeaningExactly`.
- The limit of 30 inputs a split, which the source does not ensure, is a failure of the splitter.
- When all nodes are views the first split keeps the backend of an earlier graph: a parameter.
- Reordering by a backend's graph optimizer, the decision to reserve anew, events, asynchronous copies and the copying of single experts; inputs of a split are copied before its nodes run.

Grammar
- Rules are given as sequences, as they are after they have been copied; left-recursive grammars are excluded, since the simulator does not stop on them.
- Texts that begin with "[_" are skipped by the source.
- Utf8Cuts.CutsDoNotShowExactly: is about bytes before a NUL; a text ends at its first NUL, so what comes after one is read only when the text is cut there.
- GrammarTokens.MatchPartialChar: computes the range in 32 bits for any state; the meaning lemmas are for the states decoding can leave (`Utf8.DecodedPlausible`).

KV cache and decoders
- Activations are terms: the order of summation and rounding are not modelled, and a layer is any function of a token's activation and the multiset of keys it attends to; cross-attention and the encoder do not depend on the cache.
- Recreating the cache for more decoders; the order in which candidates are sorted is arbitrary; decoder threads take disjoint decoders and are modelled one after the other.
- Every decoder in use is active from the start of a window, and prompts are not empty.

Decoding loop
- Softmax, the values of temperatures, entropies and log probabilities behind scores, and all filters but the timestamp rules: the other filters mask arbitrary tokens, the sampler picks any token of the vocabulary, and whether a result repeats itself, is unlikely or is no speech is arbitrary.
- There is at least one temperature, and a text context of at least 8 positions where positions are bounded.
- Callbacks that abort, a failing encoder, and the segments made of the tokens.
- The decoders of an attempt go through the window one after the other, each with its own sampler; the copying of tracks between decoders in beam search is in `SharedDecoders`. Scores are any real numbers, or minus infinity.
- `max_prompt_ctx == 1` together with a carried prompt, which makes the source take a negative number of tokens.
- The shortcut for contexts without loaded tensors.

Algorithms
- Fft: exact real arithmetic; the table of sines and cosines is any that obeys the laws of roots of unity; windowing and mel filters.
- Dtw: exact arithmetic; matrices have at least one row and column; segments are not empty and their tokens are one sequence; attention weights and the median filter.
- Vad: probabilities are real numbers; the neural network, integer overflow, and rounding in the conversion to samples; the threshold is at least 0.01, below which a window would be loud and quiet at once.
- Vad.RoundedInOrder: a very short segment may be empty in centiseconds.
- TimeMap: sorting gives any order among equal times; copying the samples themselves.

Elsewhere
- JNI, Kotlin and Java wrappers, model and audio files, logging, benchmarks, Core ML, OpenVINO and GPU backends, device registry, quantisation: plumbing, or foreign code, without an invariant of this kind.

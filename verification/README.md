# nanoserve, verified

A Dafny model of nanoserve, an inference server: a paged KV engine with a continuous-batching
scheduler and a prefix cache (Python), a byte-level BPE tokenizer (Python), and a router with a
bounded-load hash ring, a rate limiter, an autoscaler and mid-stream migration (Go and Lua).
`dafny verify dfyconfig.toml` checks everything.

## How it is built

Each component has two layers. The value layer gives every operation as a function on immutable
states and proves the theorems about it. The object layer is classes with the program's own fields,
loops and in-place updates; every method is proved to do exactly the step the value layer says.

| files | what they hold |
|---|---|
| `Allocator`, `Paging`, `Batch` | block allocator, block tables with copy-on-write, batch preparation |
| `Transformer`, `Content` | the model as uninterpreted layers, and what it leaves in the cache |
| `PrefixCaching`, `Isolation` | chained keys, hits, insertion, eviction; every run against private copies |
| `Requests`, `Prefilling`, `Scheduling` | the sequential baseline, the prompt run, the scheduler's steps |
| `Bookkeeping`, `Refinement`, `Progress`, `Termination` | conservation, refinement of the baseline, termination |
| `Reporting`, `Headroom` | reasons, cancellations and streamed tokens; when there is room, in blocks |
| `Recency`, `Warming` | which entry is the least recently used; what a prefill leaves to hit |
| `PagedPool`, `PrefixIndex`, `PagedBatch`, `PromptRun`, `EngineLoop`, `Sequential` | the engine's objects |
| `Bpe`, `Tokenizer`, `Training` | merges in rank order, encoder and decoder, trainer |
| `Hashing`, `Ring` | the clockwise walk and the load cap; the ring object (module `RingState`) |
| `RateLimiting`, `Autoscaling` | token buckets and their store; the controller |
| `Migration`, `Proxying` | one request across replicas; the replica and the router that run it |

## What is assumed

- A KV entry is an uninterpreted function of layer and hidden state; a layer's attention is an
  uninterpreted function of what it gathers; sampling is deterministic. Any number of layers.
- Block hashes do not collide: a key is the chain of token blocks itself. Ring hashes are arbitrary.
- Engine operations are atomic. Request ids are distinct where a theorem needs it, and says so.
- Reals stand for floats in the load cap, the buckets and the autoscaler; integers do not wrap.
- The admission controller's verdict, the clock, broken streams and departing clients are inputs,
  arbitrary in every theorem.

## What the code turns out not to do

- The rejection of a request too large for the pool (engine/scheduler.py:410-421) is never reached:
  the check before it has already broken out of the loop. An idle engine with such a request at
  its head stalls (`OversizedStalls`), exactly when `IdleAdmitsIff` says. The branches for a missing
  cache and for `OutOfBlocks` during a prefill are dead too (`AdmitOneFacts`).
- `run` can also loop without end on a request that is admitted but whose own generation outgrows
  the pool: alone in the batch, it is preempted and readmitted forever. `RunEndsIff` and
  `FreshRunEndsIff` give the exact condition under which the loop ends.
- With `max_tokens == 0` the scheduler still samples one token where the baseline samples none
  (`StopRulesAgree`); everywhere else the two agree.
- Eviction ties are said to be broken by depth (engine/prefix_cache.py:209-215). Ticks are unique, so
  there are no ties (`ColdestIn`).
- A failed `update` leaves its sequence with blocks to spare. Forking such a sequence lets the child
  write to a shared block (`ForkAfterFailure`); `AppendIsolatedIff` says when an append is isolated.
- The rate bound and the harmlessness of rejected calls hold if and only if a bucket can refill
  within its idle lifetime (`BudgetIff`, `UnobservableIff`, with the run `ShortLifeBreaksBound`).
- Adding a replica leaves the others' order on the ring alone if and only if no two of their points
  collide, because equal hashes are sorted arbitrarily (`AddKeepsOrderIff`).
- A stream that breaks after its last token but before its finish makes the next replica generate
  one token more than asked for (`MigratedIff`, with the run `LateBreakRepeats`). The rate limiter
  does not charge for it (`ReserveThenRefund`).
- Tokens that only complete a later token's character are never sent, so their ids are missing from
  a resume (`EmittedAllIff`, with `HalfCharacterLost`).
- A retry that reaches a replica where its id is still running is replayed from index 0
  (`ReplayNumberedIff`).

## Model

| member | source | states |
|---|---|---|
| `Refinement.EngineRefinesBaseline` | engine/scheduler.py:388-594 | over every run of submissions, steps, cancellations and collections with distinct ids, on any pool and initial slab: an outcome with a submitted id has that request's prompt and parameters, none ends as PREEMPTED, and one that ended by EOS or LENGTH is the sequential baseline's answer to what was submitted if and only if it asked for at least one token. Spelled out: each output token is the model's next token after the prompt and the tokens before it, an end token is among them only with `ignore_eos`, EOS is given exactly when the next token is the end token, heeded and within the budget, and LENGTH otherwise, with the budget used up |
| `Reporting.Reported` | engine/scheduler.py:335-344 | over every run with distinct ids: the batch never exceeds its maximum, an outcome is REJECTED exactly when its submission was refused, CANCELLED only when somebody asked, and the tokens streamed for a request end with its output and are exactly it if nobody was preempted |
| `Reporting.CancelsExactly` | engine/scheduler.py:292-324 | applying cancellations removes from batch and queue exactly the requests whose ids were asked for, in order, and records those, batch first, as CANCELLED with what they had; nothing else changes and no request is left to cancel |
| `Reporting.CancelLands` | engine/scheduler.py:281-324 | after asking for an id and applying, nobody with that id is live and whoever had it is an uncollected CANCELLED outcome |
| `Reporting.StepHeeds` | engine/scheduler.py:524-594 | over every run with distinct ids: after asking for an id, the next step leaves nobody live with it, and whoever had it is a CANCELLED outcome with what it had |
| `Refinement.OutcomeOfSubmitted` | engine/scheduler.py:335-359 | every outcome of every run is an outcome of something the run submitted |
| `Refinement.StepServing` | engine/scheduler.py:524-594 | a step keeps the whole invariant: every running sequence's table reads what a cold run of its tokens would have stored, its output is on the way to its own sequential answer, every cached block is right |
| `Refinement.MatchedPrefixRight` | engine/prefix_cache.py:131-160 | in every reachable state each cached block holds the KV of exactly the prefix its key stands for, and a prompt matched against the cache starts from the table a cold prefill of the covered tokens would have, its last token left out |
| `Refinement.AdmitOneFacts` | engine/scheduler.py:388-449 | an admission goes on if and only if the free list, after eviction, covers the prompt, one spare block and the reserve; it then never rejects, always gets a cache, never runs out in the prefill, samples the cold run's token and leaves more blocks free than the batch has members |
| `Requests.StopRulesAgree` | engine/baseline.py:167-194 | the scheduler's stop rule iterated on one request gives the baseline's answer if and only if `max_tokens` is at least 1; what that answer is, `BaselineSpellsIff` says |
| `Requests.BaselineSpellsIff` | engine/baseline.py:167-194 | the baseline's answer is the one and only output in which each token is the model's next token after the prompt and the tokens before it, no end token is recorded unless ignored, and the reason is EOS exactly when a heeded end token comes within the budget, else LENGTH with the budget used up |
| `Bookkeeping.Conservation` | engine/scheduler.py:257-359 | over every run with distinct ids each submitted request, as submitted, is in exactly one of batch, queue, uncollected and collected outcomes, once; batch then queue is a subsequence of the order of submission; the finished count and the bounded history agree with the outcomes |
| `Bookkeeping.RunAccounts` | engine/scheduler.py:335-359 | with any ids: live requests and outcomes together are exactly the submitted requests, as a multiset, after every run |
| `Bookkeeping.PreemptBooks` | engine/scheduler.py:495-513 | a preemption moves nothing in arrival order and loses no request |
| `Progress.AdmissionNeverPreempts` | engine/scheduler.py:400-449 | a step that admits at least one request prepares its batch and preempts nobody in that same step |
| `Progress.StepProgress` | engine/scheduler.py:524-594 | with everything fitting the pool, every step of a busy engine lowers, lexicographically: unfinished requests, tokens left for the oldest, batch size |
| `Progress.RunTerminates` | engine/scheduler.py:616-631 | without the prefix cache, for requests whose admitted members fit the pool, `run` ends; it returns every request exactly once, unchanged but for output and reason, and each completed one is the baseline's answer |
| `Progress.BudgetFits` | engine/scheduler.py:385-386 | admission need plus the blocks of prompt and full token budget within the pool are enough to fit |
| `Progress.IdleAdmitsIff` | engine/scheduler.py:400-421 | an idle engine admits the head of its queue if and only if its need plus reserve is at most the size of the pool |
| `Progress.OversizedStalls` | engine/scheduler.py:405-421 | with a request at its head that the pool can never hold, an idle engine's step changes nothing but the prefix cache, and nothing at all once that is empty |
| `Termination.RunEndsIff` | engine/scheduler.py:616-631 | without the prefix cache the loop ends after some number of steps if and only if every live request fits the pool alone: its admission check, and the blocks of all its own generation feeds the model |
| `Termination.FreshRunEndsIff` | engine/scheduler.py:616-631 | `run` on a fresh engine ends if and only if every admitted request fits |
| `Termination.UnfitStays` | engine/scheduler.py:495-513 | a live request that does not fit is still live after the next iteration |
| `Termination.RunCompletes` | engine/scheduler.py:616-631 | without the prefix cache and with everything admitted fitting, `run` returns the refused requests first, as REJECTED, and every other one completed by EOS or LENGTH: none is cancelled, preempted or lost |
| `Headroom.AdmitsIff` | engine/scheduler.py:400-421 | the head of the queue goes on if and only if free blocks and blocks only the cache holds cover one more than the prompt's blocks plus the larger of the configured reserve and one more than the batch size; when it does not, only the cache has changed and there is still no room |
| `Headroom.AdmitStops` | engine/scheduler.py:388-449 | admission stops only at an empty queue, a full batch or a head without room, and takes from the front of the queue |
| `Isolation.RunRefinesCopies` | engine/block_manager.py:114-317 | over every run of open, append, batched step, fork, free, match, insert, evict and clear: reference counts are exact and the free list holds each unused block once after every operation, and each operation is that operation on private logs and private cached copies, so no write is ever seen by another sequence or cached block |
| `Isolation.PerformFaithful` | engine/block_manager.py:205-317 | one operation keeps the counts exact and has, on private copies, just its own effect, failures included |
| `Isolation.AppendIsolatedIff` | engine/block_manager.py:231-294 | for any table, also one with blocks to spare: the positions an append opens are all in blocks of its own if and only if every block it will write to is unshared or is the last one and about to be copied |
| `Isolation.ForkAfterFailure` | engine/block_manager.py:213-309 | a failed append followed by a fork and an append that writes to a shared block |
| `Paging.ReserveFacts` | engine/block_manager.py:213-294 | making room succeeds if and only if missing blocks plus one for a shared partial tail fit the free list; it then takes exactly that many, changes nothing anybody can read, and every position it opened is private |
| `Headroom.ReserveCost` | engine/block_manager.py:213-294 | with `k` the fewest blocks that hold the new length: room is made if and only if `k`, plus one for a shared partial tail, is at most the blocks held and free, and then exactly the difference is taken |
| `Headroom.ExtendsIff` | engine/block_manager.py:261-294 | an append keeps its sequence if and only if that many blocks can be had; otherwise the sequence, and only it, is given up |
| `Paging.CowIsolated` | engine/block_manager.py:231-259 | copying a shared tail changes no view of any sequence or cached block and leaves the tail private |
| `Paging.PrivateSlot` | engine/block_manager.py:261-294 | a slot of a block held by one sequence is read by that sequence, at one position, and by nobody else |
| `Batch.PrepareAtomic` | engine/scheduler.py:115-181 | preparation succeeds if and only if the counted need fits the free list, also when members share tails; otherwise nothing has changed; after it the write slots are pairwise distinct, private and those of each member's own slot list |
| `Headroom.PreparesIff` | engine/scheduler.py:115-181 | a batch can be prepared if and only if its members at a block boundary or with a shared tail are no more than the free blocks |
| `Headroom.StepsIff` | engine/scheduler.py:115-181 | a batched step advances every member by one entry exactly when the batch can be prepared, and otherwise changes nothing |
| `Transformer.ForwardRight` | engine/scheduler.py:187-198 | a forward pass over all layers whose plan is sound stores each query's reference entry, leaves every other slot alone and samples each query's reference token |
| `Content.PassIsolated` | engine/scheduler.py:187-198 | whatever is scattered to private slots, every other position of every table and every cached block reads as before |
| `Content.PrefillRight` | engine/scheduler.py:451-483 | running only the uncached suffix gives a right table for the whole prompt and the token a cold run samples |
| `Content.DecodeRight` | engine/scheduler.py:550-570 | a batched decode pass leaves every member's table right for its own tokens and samples for each what it would have sampled alone |
| `Content.ReuseRight` | engine/prefix_cache.py:131-160 | a table seeded with the blocks of the hits reads what a cold prefill of the covered tokens would have stored |
| `Content.TableBlockRight` | engine/prefix_cache.py:162-201 | a full block of a right table holds exactly the prefix its chained key stands for |
| `Prefilling.PrefillFacts` | engine/scheduler.py:451-483 | a prompt whose blocks fit the free list never runs out; however much of it was cached, the table is right for the whole prompt, the token is the cold run's, and no more than the prompt's blocks are taken |
| `PrefixCaching.SpanKey` | engine/prefix_cache.py:115-129 | a chained key determines its depth and every token up to its end |
| `PrefixCaching.EvictFacts` | engine/prefix_cache.py:203-231 | eviction takes only blocks nobody else holds, coldest first, one free block each, and fewer than asked for only when nothing evictable is left |
| `PrefixCaching.ColdestIn` | engine/prefix_cache.py:203-231 | the coldest evictable entry is strictly older than every other: ticks are unique |
| `Headroom.EnsureFreeExact` | engine/prefix_cache.py:233-238 | making room succeeds if and only if free blocks and blocks only the cache holds are enough; it evicts just as many as are missing, or all it can, and nothing when enough are free |
| `Recency.ReuseRefreshes` | engine/prefix_cache.py:131-160 | after a match every entry hit is more recent than every entry that was not, in chain order, and the others are as they were |
| `Recency.InsertRefreshes` | engine/prefix_cache.py:162-201 | an insertion leaves the known keys and the keys newly entered more recent than all the rest, in chain order; it enters a key exactly when it is unknown and its block is not cached under another; the others are as they were |
| `Recency.EvictsLeastRecentlyUsed` | engine/prefix_cache.py:203-231 | over every run of pool and cache operations: an entry that is evicted was used before every evictable entry that stays, where a use is a hit, an insertion or a re-insertion in the log of the run |
| `Warming.PrefillCaches` | engine/scheduler.py:451-483 | after a prefill with the cache on, every full block of the prompt is cached under its chained key |
| `Warming.SecondHit` | engine/scheduler.py:451-483 | the same prompt again hits every full block before its last token |
| `Allocator.BlockAllocator.Allocate` | engine/block_manager.py:130-136 | pops the last free block with a count of one, or changes nothing |
| `Allocator.BlockAllocator.AllocateMany` | engine/block_manager.py:138-146 | all or nothing: distinct unused blocks, or nothing changed |
| `Allocator.BlockAllocator.Decref` | engine/block_manager.py:153-161 | one reference fewer, freed exactly at zero; a count of zero is refused |
| `PagedPool.PagedCachePool.Forward` | engine/scheduler.py:187-198 | the layer loop over the slab in place is the specified pass |
| `PagedPool.PagedCachePool.CopyBlock` | engine/block_manager.py:383-389 | copies one block's slots in place and no others |
| `PagedPool.PagedKVCache.UnshareTail` | engine/block_manager.py:231-259 | the pool's next state is exactly that of the value-level unshare, `OutOfBlocks` included |
| `PagedPool.PagedKVCache.EnsureRoom` | engine/block_manager.py:213-229 | takes missing blocks one at a time; when the list runs dry it keeps those already taken |
| `PagedPool.PagedKVCache.Advance` | engine/block_manager.py:261-294 | layer 0 of `update`: exactly the value-level reservation, on success and on failure |
| `PagedPool.PagedKVCache.Fork` | engine/block_manager.py:296-309 | a new sequence over the same blocks, each with one more reference |
| `PagedPool.PagedKVCache.Free` | engine/block_manager.py:311-317 | every block given back, the sequence gone, the others in place |
| `PrefixIndex.PrefixCache.ChainOf` | engine/prefix_cache.py:115-129 | the loop computes the chained keys of the full blocks |
| `PrefixIndex.PrefixCache.Reuse` | engine/prefix_cache.py:131-160 | `match` then `attach`: the sequence starts from the longest cached prefix, which is the value-level reuse whose recency `ReuseRefreshes` gives |
| `PrefixIndex.PrefixCache.Insert` | engine/prefix_cache.py:162-201 | registers the full blocks of a sequence, known keys only touched, blocks cached under another key left alone: the value-level insertion whose recency `InsertRefreshes` gives |
| `PrefixIndex.PrefixCache.FindColdest` | engine/prefix_cache.py:203-231 | finds the least recently used entry only the cache holds, or none exactly when none is evictable |
| `PrefixIndex.PrefixCache.Evict` | engine/prefix_cache.py:203-231 | the loop is the value-level eviction and returns how many blocks it freed |
| `PrefixIndex.PrefixCache.EnsureRoomFor` | engine/prefix_cache.py:233-238 | evicts as far as needed; true exactly when enough blocks are free |
| `PrefixIndex.PrefixCache.Clear` | engine/prefix_cache.py:240-247 | every entry and its reference gone |
| `PagedBatch.BatchedPagedCache.PrepareStep` | engine/scheduler.py:115-181 | count, then commit: on success the prepared pool and the write slots, otherwise nothing changed |
| `PagedBatch.BatchedPagedCache.BuildPlan` | engine/scheduler.py:115-181 | each member writes its new slot and reads every slot it has |
| `PromptRun.RunPrompt` | engine/scheduler.py:451-483 | the prompt run in place is the value-level prefill |
| `EngineLoop.ContinuousBatchingEngine.AddRequest` | engine/scheduler.py:257-279 | queues the request, or records it as rejected, whatever admission says |
| `EngineLoop.ContinuousBatchingEngine.ApplyCancels` | engine/scheduler.py:292-324 | cancels the wanted sequences of the batch and requests of the queue, blocks given back |
| `EngineLoop.ContinuousBatchingEngine.AdmitAll` | engine/scheduler.py:388-449 | the admission loop in place is the value-level one |
| `EngineLoop.ContinuousBatchingEngine.PreemptNewest` | engine/scheduler.py:495-513 | the newest sequence gives back its blocks and returns to the head of the queue without output |
| `EngineLoop.ContinuousBatchingEngine.DecodeStep` | engine/scheduler.py:554-594 | one pass over the batch and its tokens settled, or one preemption |
| `EngineLoop.ContinuousBatchingEngine.Step` | engine/scheduler.py:524-594 | cancellations, admission and decode in place are the value-level step; the invariant holds after it |
| `EngineLoop.ContinuousBatchingEngine.DrainFinished` | engine/scheduler.py:346-359 | hands over every outcome since the last call, once |
| `EngineLoop.ContinuousBatchingEngine.Run` | engine/scheduler.py:616-631 | returns every request exactly once, unchanged but for output and reason: the refused ones first, as REJECTED, the others completed, each with the baseline's answer, token by token the model's next one and with the reason the end token and the budget give |
| `Sequential.BaselineEngine.Generate` | engine/baseline.py:167-194 | the sampling loop computes the baseline's answer, spelled out: each token the model's next one, no heeded end token recorded, EOS or LENGTH exactly as end token and budget say |
| `Sequential.BaselineEngine.Step` | engine/baseline.py:95-165 | the next queued request is run to completion and recorded |
| `Bpe.MergeRemoves` | model/tokenizer.py:298-310 | after its merge a pair does not occur, overlapping occurrences included |
| `Bpe.MergeIff` | model/tokenizer.py:298-310 | a row is the merged one if and only if undoing the merge gives the row back, the pair occurs nowhere in it, and, for a doubled token, no leftover precedes a merged one: leftmost first |
| `Bpe.RankOrderClean` | model/tokenizer.py:206-227 | after all merges in rank order no learned pair occurs in the row |
| `Bpe.RoundIsRankOrder` | model/tokenizer.py:206-227 | one round of the encoder, applying the lowest-ranked pair present, is the next effective merge in rank order |
| `Bpe.DecodeEncode` | model/tokenizer.py:76-88 | the tokens of a piece decode to exactly its bytes |
| `Tokenizer.Merge` | model/tokenizer.py:298-310 | the loop replaces every non-overlapping occurrence, left to right |
| `Tokenizer.BPETokenizer.Rebuild` | model/tokenizer.py:76-88 | vocabulary and ranks are those of the merges; the memo is empty |
| `Tokenizer.BPETokenizer.LowestRank` | model/tokenizer.py:217-221 | finds the lowest-ranked learned pair in the row, or none exactly when none occurs |
| `Tokenizer.BPETokenizer.EncodeRounds` | model/tokenizer.py:206-227 | repeatedly applying the lowest-ranked merge equals applying every learned merge once in rank order |
| `Tokenizer.BPETokenizer.EncodePiece` | model/tokenizer.py:206-227 | the memo never shows: the answer is the row in rank order and decodes to the piece |
| `Tokenizer.BPETokenizer.Decode` | model/tokenizer.py:257-270 | concatenates the tokens' bytes |
| `Training.BuildIndex` | model/tokenizer.py:150-157 | counts and places of every pair are those of a full recount |
| `Training.ShareCounts` | model/tokenizer.py:150-157 | a word's share of a pair's count is its frequency times the number of places the pair stands in it |
| `Training.BestPair` | model/tokenizer.py:163-173 | the pair of largest count, ties to the larger pair |
| `Training.MergeStep` | model/tokenizer.py:175-196 | rewriting only the words listed rewrites them all; counts and places are again a full recount; the merged pair occurs nowhere and is in neither table |
| `Training.Train` | model/tokenizer.py:158-196 | every merge learned is the best pair of a full recount at its turn and frequent enough, none is learned twice, and training stops early only when the best pair is too rare or none is left |
| `Training.TrainTokenizer` | model/tokenizer.py:109-204 | refused exactly when the vocabulary has no room; otherwise pieces are counted exactly, without duplicates, the merges are greedy for those counts, and the tokenizer encodes every training piece to its row at the end of training |
| `Hashing.SomeoneUnderCap` | router/ring.go:316-340 | for any finite epsilon at least 0 some ready replica is under the cap that one more request imposes, the cap being the number `CapIsLeast` determines |
| `Hashing.CapIsLeast` | router/ring.go:316-340 | the cap is at least 1, and above that the least whole `k` with `k` times the ready replicas at least `1 + epsilon` times the total |
| `Hashing.WalkSuffices` | router/ring.go:208-240 | with no exclusions the walk itself finds a replica under the cap: the fallback is unreachable |
| `Hashing.PickFailsIff` | router/ring.go:182-250 | a pick fails if and only if no ready replica is left outside the exclusions |
| `Hashing.PicksStayCapped` | router/ring.go:182-230 | over every run of picks with readiness fixed no load exceeds the cap, the number `CapIsLeast` determines |
| `Hashing.LoadsBounded` | router/ring.go:182-230 | over every run of picks with readiness fixed, for every ready replica with a load above 1: one less than its load, times the ready replicas, is below `1 + epsilon` times the total load |
| `Hashing.PickChosen` | router/ring.go:182-250 | the pick is a replica with the first point clockwise from the key among those ready, not excluded and within the load bound as multiplied out; failing those, a ready one of least load; failing those, none |
| `Hashing.RotatedIsWalk` | router/ring.go:343-351 | walking from the index found by the binary search, with wrap-around, is the clockwise walk |
| `Hashing.UnboundedPicksServed` | router/ring.go:208-230 | without a load bound a pick is the key's server, the first ready replica clockwise |
| `Hashing.RemoveMovesOwn` | router/ring.go:129-150 | removing a replica moves only the keys it served |
| `Hashing.UnreadyMovesOwn` | router/ring.go:152-158 | marking a replica unready moves only the keys it served |
| `Hashing.AddMovesOntoNewcomer` | router/ring.go:106-127 | adding a replica to a ring without collisions moves keys only onto the newcomer |
| `Hashing.AddKeepsOrderIff` | router/ring.go:353-357 | the others' order survives an addition, whatever the sort does, if and only if no two of their points have equal hashes |
| `RingState.Ring.Add` | router/ring.go:106-127 | a newcomer joins unready with its points sorted in; a known id only changes address |
| `RingState.Ring.Remove` | router/ring.go:129-150 | the replica and all its points gone, the rest in order |
| `RingState.Ring.SetReady` | router/ring.go:152-158 | readiness changes and nothing else |
| `RingState.Ring.Search` | router/ring.go:343-351 | the first point at or after the hash, or 0 |
| `RingState.Ring.WalkFrom` | router/ring.go:208-230 | the first ready replica under the cap and not excluded in clockwise order, also with the early stop |
| `RingState.Ring.PickExcluding` | router/ring.go:182-250 | the replica of the first point clockwise that is ready, not excluded and within the load bound, else a least loaded ready one, else an error; its load one higher and nothing else changed |
| `RingState.Ring.Release` | router/ring.go:253-259 | one load fewer, never below zero |
| `RateLimiting.AdmitCharges` | router/ratelimit.go:60-113 | a call is admitted if and only if both buckets cover it; it then pays both prices, otherwise neither balance changes; the verdict carries the balances left, or -1 throughout for a cost above capacity, which changes nothing |
| `RateLimiting.NewcomerFull` | router/ratelimit.go:67-79 | a client without buckets, or idle for their lifetime, is admitted exactly when the cost is within capacity, and starts from full buckets |
| `RateLimiting.RefillMeans` | router/ratelimit.go:67-79 | a live bucket refills by rate times elapsed time up to capacity and by nothing if the clock went back |
| `RateLimiting.RepayCredits` | router/ratelimit.go:120-148 | a refund adds its amount up to capacity, a non-positive one nothing, and never touches the request bucket |
| `RateLimiting.RunWithin` | router/ratelimit.go:49-148 | over every run on a clock that never goes back, both buckets stay between empty and full |
| `RateLimiting.RateBound` | router/ratelimit.go:49-148 | from any state, what any stretch of calls is admitted for is at most capacity plus rate times its length plus refunds, key expiry included, where a bucket refills within its lifetime |
| `RateLimiting.BudgetIff` | router/ratelimit.go:49-148 | every run stays on budget if and only if buckets refill within their lifetime |
| `RateLimiting.ShortLifeBreaksBound` | router/ratelimit.go:105-111 | a concrete tier and run that exceed the bound by waiting out the expiry |
| `RateLimiting.ExpiryUnobservableIff` | router/ratelimit.go:67-79 | expiry is never visible in a refill if and only if a bucket refills within its lifetime |
| `RateLimiting.RetryExact` | router/ratelimit.go:81-95 | left alone, the same call is rejected at every time before the hint and admitted from it on, or from the expiry if that comes first |
| `RateLimiting.NeverIff` | router/ratelimit.go:60-65 | the final rejection is given exactly for a cost above capacity, in every state and at every time |
| `RateLimiting.UnobservableIff` | router/ratelimit.go:60-113 | deleting rejected calls changes no other verdict and no balance, in every run, if and only if buckets refill within their lifetime |
| `RateLimiting.ReserveThenRefund` | router/proxy.go:134-187 | reserving the budget and refunding what was not delivered lowers the token balance by the tokens delivered, at most the budget, and the request balance by one, apart from refill and clamp |
| `RateLimiting.Store.Allow` | router/ratelimit.go:264-279 | the script in place: both buckets checked and charged together, no other client touched |
| `RateLimiting.Store.Refund` | router/ratelimit.go:281-295 | the refund script in place, no other client touched |
| `Autoscaling.NeverReverses` | router/autoscaler.go:152-237 | under constant queue and KV load, each decision applied before the next, the ready count moves in one direction only, from any fleet, outages and empty registries included, any history and at any times |
| `Autoscaling.OutageHeld` | router/autoscaler.go:162-174 | an outage is held for as long as it lasts |
| `Autoscaling.ScaleDownTarget` | router/autoscaler.go:211-237 | a scale-down goes to the largest demand in the window and is held exactly while the window has a demand for the current count |
| `Autoscaling.DecisionInRange` | router/autoscaler.go:181-237 | with a ready replica every decision, held ones too, is within the policy's bounds |
| `Autoscaling.DemandIgnoresCount` | router/autoscaler.go:181-193 | outside the dead band the demand does not depend on the current count |
| `Autoscaling.RawDemanded` | router/autoscaler.go:181-209 | the demand recorded is, brought into the policy's range: the ready count when the queue is within tolerance of target times ready, else the fewest replicas whose targets cover the queue; and at least one more than ready under KV pressure |
| `Autoscaling.DemandUnique` | router/autoscaler.go:181-209 | that description leaves one number |
| `Autoscaling.ConcludeDecides` | router/autoscaler.go:211-237 | over the whole record: a demand of at least the count is followed at once; a lower one is held exactly while a demand for the count is in the window, and otherwise goes to the largest demand there |
| `Autoscaling.TrimKeepsWindow` | router/autoscaler.go:239-246 | keeping the trimmed history is keeping the whole record and reading its window |
| `Autoscaling.Autoscaler.Decide` | router/autoscaler.go:152-237 | the decision in place is the specified one on the window of everything ever recorded; the demand it records is the one `RawDemanded` describes, and what it decides from the record is as in `ConcludeDecides`; with nothing ready it asks for the registered count, or the minimum, and records nothing |
| `Migration.EmittedAllIff` | engine/replica.py:145-168 | the ids sent are the tokens generated if and only if every token completes some text |
| `Migration.HalfCharacterLost` | engine/replica.py:155-161 | a decoder and two tokens of which the first is never sent |
| `Migration.StreamedText` | engine/replica.py:145-168 | for a decoder that never revises complete text, the pieces sent spell the decoded text once it ends on a character boundary |
| `Migration.RelaysMore` | router/proxy.go:299-368 | what a run of attempts relays, one attempt on: token events and ids chunk by chunk, then a closing event decided by the finish, the exhausted status and the client alone |
| `Migration.Unbroken` | router/proxy.go:219-296 | over every pattern of broken streams, if the id is not already running on a replica, the indices the replicas chose reach the client as 0, 1, 2, ... with no gap or repeat, one for each id forwarded |
| `Migration.NumberedStep` | router/proxy.go:347-355 | an attempt keeps the numbering if and only if its own chunks are numbered on from what was delivered |
| `Migration.ReplayNumberedIff` | engine/replica.py:183-192 | an attempt replayed from a running generation keeps the numbering if and only if nothing had been delivered or nothing of the replay arrives |
| `Migration.ResumeContinues` | engine/replica.py:116-127 | generating from prompt and delivered tokens continues the original generation |
| `Migration.MigratedIff` | router/proxy.go:219-296 | when every token shows and each replica generates what the model does, the ids at the finish are those of an uninterrupted run if and only if the last attempt began before the whole budget was delivered, or the model stops right there |
| `Migration.LateBreakRepeats` | router/proxy.go:281-296 | an honest run that delivers two tokens where one was asked for |
| `Proxying.InferenceServicer.Generate` | engine/replica.py:85-181 | the chunks are exactly those specified for draining, duplicate, empty, rejected, cancelled and completed calls; the id is in flight only while the call runs |
| `Proxying.InferenceServicer.StreamTokens` | engine/replica.py:142-168 | the streaming loop emits the pieces of the tokens produced, numbered on from the resumed ones |
| `Proxying.Proxy.Attempt` | router/proxy.go:299-368 | forwards each chunk's own text, index and id up to the finish; a done event with the finish's code and count follows exactly when the finish is not a rejection; a refusal is a rejected finish or an exhausted break; anything else is a break |
| `Proxying.Proxy.PickUntried` | router/proxy.go:370-380 | a ready replica not yet tried, or none exactly when all have been |
| `Proxying.Proxy.Run` | router/proxy.go:219-296 | each attempt asks a fresh replica to resume from the ids delivered so far; what reaches the client is what arrived, then one done event exactly for a finish that is not a rejection, one rejected event exactly for a rejection or exhaustion with the client still there; it goes on exactly after breaks that are neither; every pick is released; it fails only when attempts or ready untried replicas run out; with a fresh id the indices are unbroken and as many as the count the refund uses |
| `Proxying.Proxy.ServeGenerate` | router/proxy.go:134-195 | nothing is dispatched unless the whole budget can be reserved; afterwards the client has paid for the tokens delivered, at most the budget; no other client and no load has changed |

## Left out

- Tensor arithmetic, RoPE, attention kernels, sampling with temperature, top-k or top-p, training, checkpoints: replaced by uninterpreted functions.
- Floating-point rounding, 32-bit and 64-bit wrap-around, and the millisecond ceiling of key expiry: reals and integers are used.
- The splitting regex, UTF-8 replacement, special tokens and save/load of the tokenizer: pieces are given as byte sequences.
- Termination of `run` with the prefix cache on: decode failures preempt without evicting, so it would need more than sizes.
- Reporting.Reported: after a preemption tokens are streamed again, so what was streamed ends with the output and equals it only without preemptions.
- Statistics, timestamps, deadlines, fragmentation counters and metrics.
- The admission controller's own projection, the static contiguous pool and the quantizer.
- HTTP, SSE and gRPC framing, `parseVerdict`, the fail-open and fail-closed paths of an unreachable limiter, client keys and prefix keys.
- Discovery, election, health checks, the reconciler, and the executor and collector loop around the autoscaler.
- Concurrency between a step and `add_request`, between duplicate calls on one replica, and between requests at the router: operations are atomic.
- RingState.Ring.Add: promises a sorted arrangement only, because the sort is not stable; which of two equal hashes comes first is not modelled.
- Proxying.Proxy.ServeGenerate: states the token balance only where the bucket written by the reservation still lives when the refund comes, or would have refilled; otherwise the reservation has expired.
- Migration.MigratedIff: covers replicas whose engine answers what the model generates and streams that are not replayed; refusals and departed clients end a request without an answer to compare.
- Sequential.BaselineEngine.Step: leaves out the baseline's own cache and its `OutOfBlocks` exit, because the baseline is the specification here.

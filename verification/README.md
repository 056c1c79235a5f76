# wiwi: a verified model of the gateway's stateful core

wiwi is an asyncio LLM gateway. Code between two awaits runs atomically and so does one SQL
statement, so its hard parts are protocols over shared state. This project models them in
Dafny and proves what they keep, over every interleaving and every run.

| file | component |
|---|---|
| `GrantRotation.dfy` | rotation of a single-use OAuth grant by racing callers |
| `AuthCache.dfy` | the lock-free authentication cache against revocation |
| `SpendLedger.dfy` | budget reservations and the write-behind spend buffer |
| `OrderStatistics.dfy`, `BinTable.dfy`, `Histogram.dfy` | log-scale histograms and percentiles |
| `Rollup.dfy`, `RollupRuns.dfy`, `LogCap.dfy` | rolling request rows up, and the row cap |
| `ModelTails.dfy`, `Reprice.dfy` | which price covers which model; retroactive repricing |
| `StreamPump.dfy`, `StreamContract.dfy`, `StreamClient.dfy`, `ResumeUsage.dfy` | the stream pump, mid-stream resume, usage totals |
| `SingleFlights.dfy` | concurrent-request dedupe |
| `Circuits.dfy`, `Healer.dfy` | circuit breaker and health healer |
| `AnthropicDecoder.dfy`, `AnthropicEncoder.dfy` | tool-call lifecycle, hosted call/result pairs |
| `Prelude.dfy` | optional values, order and set helpers |

Shape of the models. A protocol is a state with a step function, `Enabled` says which steps the
outside world may take, and the theorems range over all sequences of enabled steps. Beside it
a class holds the fields the source updates in place; each of its methods is one stretch of
code between two awaits, or one call, and its `ensures` is the step function applied to the old
state; a coroutine that awaits several times is several methods. Money and time are `real`; ids,
texts and hashes are numbers, compared for equality only. Clocks, replies, failures,
cancellations and schedules are parameters or events.

Findings. Where a promise of the code or its comments is false, the code is kept, a lemma
names a failing input, and another gives the exact condition:

- A holder cancelled after the upstream consumed the grant and before the record write landed
  loses the grant, and the next tick kills a provider nobody revoked
  (`CancelledWriteKillsProvider`; the condition is `LosesGrant`, in `CustodyExactly`).
- A holder cancelled while a new token is being handed out leaves the keys it had not reached
  with a token the record no longer knows (`OwnershipStep`); cancelled between the commit of
  the record and the first key it leaves none, and the next hand-out overwrites the first key
  of the pool, whosever it is (`StrandedHandOutHitsFirstKey`).
- A flush cancelled part-way drops its batch (`CancelledFlushLosesCharge`), and a batch whose
  summed cost is negative is clamped when settled; `ConservationStep` gives both as the only leaks.
- A client that leaves without a grace drain may be sent two error frames (`TwoErrors`,
  `AtMostOneTerminalExactly`).
- What is cached of a key's spend is not exact "with zero lag": it omits what was buffered when
  the credential was looked up, and charges through older objects (`CachedSpendExactly`).
- With prompt capture on, the usage logged for a resumed stream counts the resumed attempts
  twice (`CaptureCountsTwice`; agreement exactly in `CaptureAgreesExactly`).
- The folded usage record may state no convention for cached tokens where the shown frame states
  one: exactly when the first priced attempt did not (`ConventionsAgreeExactly`).
- Repricing before and after a rollup can give different costs, as the rollup pass always takes
  cached tokens to be part of the prompt (`RollupThenRepriceExactly`, `ExcludedCachedDisagree`).
- `message_stop` closes no tool call, only `[DONE]` does (`UnstoppedCall`, `MessageStopLeavesOpen`).
- The encoder pairs and gates hosted calls by their `builtin` mark, not by the block type it
  sends: a call hosted by type only goes out unanswered (`UnmarkedCallEscapes`), and the result
  of a call hosted by mark only goes out without a hosted call (`PlainCallIsSplit`);
  `HostedPairsAreClosed` gives the exact condition for each id.

One comment disagrees with the code it describes: `_sweep_cache` takes the front of its
dictionary for the least recently written entry, but assigning to a present key keeps its
position. The model follows the code.

## Model

| member | source | states |
|---|---|---|
| GrantRotation.GrantSafety | wiwi/providers/cline_auto_refresh.py:197-336 | in any interleaving of callers and any pattern of failed record writes, every grant presented is the live unconsumed one, only a real revocation kills the provider, and one generation completes at most one rotation |
| GrantRotation.CustodyExactly | wiwi/providers/cline_auto_refresh.py:151-184 | over every run the next grant to be presented is the live one if and only if no step threw the replacement away |
| GrantRotation.LossLoses | wiwi/providers/cline_auto_refresh.py:279-325 | each of those steps leaves no copy of the live grant anywhere |
| GrantRotation.LostForever | wiwi/providers/cline_auto_refresh.py:259-336 | once lost, the live grant is never regained by any run |
| GrantRotation.CancelledWriteKillsProvider | wiwi/providers/cline_auto_refresh.py:306-325 | from every fresh start there is a run, with one cancelled 401 hook, that marks an unrevoked provider dead |
| GrantRotation.StepKeepsGenerations | wiwi/providers/cline_auto_refresh.py:220-231 | no two completed rotations rest on the same captured generation |
| GrantRotation.SweepsAreInTime | wiwi/providers/cline_auto_refresh.py:252-257 | over every run, a grant presented on behalf of a sweeper is of a record that expires within 300 s of that moment |
| GrantRotation.ReadDecidesExactly | wiwi/providers/cline_auto_refresh.py:236-257 | after the read of a record a call goes out, with its grant, exactly unless only a due one was wanted and it does not expire within 300 s; else the lock is free and nothing was presented |
| GrantRotation.FlushDecidesExactly | wiwi/providers/cline_auto_refresh.py:240-257 | the same at the end of a flush: exactly if the flushed record is due, or has no expiry and need not be; a mere flush presents nothing |
| GrantRotation.PendingComesFirst | wiwi/providers/cline_auto_refresh.py:236-245 | a pending rotation is written before anything is presented, and without a record nothing is |
| GrantRotation.GateExactly | wiwi/providers/cline_auto_refresh.py:220-233 | a caller passes the gate exactly if nobody rotated since it arrived and, unless forced, the circuit is neither dead nor open |
| GrantRotation.FlushGateExactly | wiwi/providers/cline_auto_refresh.py:140-161 | a flush takes the lock exactly if a rotation is pending |
| GrantRotation.ReplyDecidesExactly | wiwi/providers/cline_auto_refresh.py:270-304 | a rejection kills the provider, a new grant goes on to the record write with its token and expiry |
| GrantRotation.BackoffExactly | wiwi/providers/cline_auto_refresh.py:266-268 | the n-th transient failure in a row closes the gate for min(14400, 300 * 2^(n-1)) s |
| GrantRotation.HandOutsAreCounted | wiwi/providers/cline_auto_refresh.py:174-184 | the generation rises by one exactly when a hand-out is through, which also closes the circuit |
| GrantRotation.OwnershipStep | wiwi/providers/cline_auto_refresh.py:367-399 | every step leaves foreign keys alone and the owned keys recognised, less exactly those that a hand-out broken off between two key writes had not reached; none is recognised exactly after a death between the record's commit and the first key |
| GrantRotation.OwnershipOverRuns | wiwi/providers/cline_auto_refresh.py:306-399 | over any run without such a death, other cancellations included, the keys recognised at the end are those of the start less the stranded ones, never none, and no other key ever changes |
| GrantRotation.StrandedHandOutHitsFirstKey | wiwi/providers/cline_auto_refresh.py:361-365 | after such a death the next hand-out has the first key of the pool for its only target |
| GrantRotation.HandOut | wiwi/providers/cline_auto_refresh.py:367-399 | whatever runs between its key writes, a hand-out ends up having written the new token into exactly the matching keys, all of them, or the first, unless it is broken off |
| GrantRotation.ClineAutoRefresh.RefreshLocked | wiwi/providers/cline_auto_refresh.py:220-222 | arriving captures the generation and queues for the lock, nothing else |
| GrantRotation.ClineAutoRefresh.LockAcquired | wiwi/providers/cline_auto_refresh.py:223-235 | circuit, then generation, are looked at under the lock |
| GrantRotation.ClineAutoRefresh.RecordRead | wiwi/providers/cline_auto_refresh.py:236-257 | the re-read record, a pending rotation first, decides what is presented |
| GrantRotation.ClineAutoRefresh.RecordWritten | wiwi/providers/cline_auto_refresh.py:165-175 | a failed write keeps the replacement in memory; a good one drops the pending entry, picks the targets and assigns the first, all before the next await |
| GrantRotation.ClineAutoRefresh.KeyPersisted | wiwi/providers/cline_auto_refresh.py:380-399 | one key's write returned, good or bad: the next key is assigned; an exception out of the loop ends the hold |
| GrantRotation.ClineAutoRefresh.ReplyReceived | wiwi/providers/cline_auto_refresh.py:265-304 | the three replies: trip, die, or carry the new record and the old fingerprint on |
| GrantRotation.ClineAutoRefresh.FlushPending | wiwi/providers/cline_auto_refresh.py:140-149 | a flush queues for the same lock and presents no grant |
| GrantRotation.Targets | wiwi/providers/cline_auto_refresh.py:338-365 | the targets are exactly the matching keys, or all, or the first, in pool order |
| GrantRotation.ClineAutoRefresh.OwnedKeys | wiwi/providers/cline_auto_refresh.py:338-365 | the scan of the pool finds those targets |
| GrantRotation.ClineAutoRefresh.StoreNext | wiwi/providers/cline_auto_refresh.py:174-184 | with no key left: generation and circuit, then done or, after a flush of a record that is due, the call |
| AuthCache.RevocationIsFinal | wiwi/auth/service.py:353-417 | over every run no call is answered from a row older than its key's last eviction, whatever lookups were in flight; a cached key without an outstanding change publishes its current row; the cache stays bounded |
| AuthCache.ExpiryIsFinal | wiwi/auth/service.py:345-351 | over every run a credential given out is the row that was read, has not expired at that moment and, out of the cache, has no cap; a row that was read is refused only if its expiry had passed |
| AuthCache.CacheAnswersExactly | wiwi/auth/service.py:362-383 | a call is answered from the cache exactly if an entry younger than 60 s holds nothing, or an uncapped credential that has not expired |
| AuthCache.SweepExactly | wiwi/auth/service.py:223-240 | below the ceiling a sweep does nothing; else nothing older than 60 s stays, and of the younger entries all, or, at the ceiling, the later-inserted half |
| AuthCache.EvictionsAreExact | wiwi/auth/service.py:471-482 | an eviction drops one entry, forgetting a key all of its entries, and neither any other |
| AuthCache.CommitKeepsInv | wiwi/auth/service.py:572-582 | between a commit and its eviction, stale entries belong to keys with an outstanding change only |
| AuthCache.EvictKeepsInv | wiwi/auth/service.py:471-482 | dropping an entry and bumping the generation makes every lookup in flight re-read |
| AuthCache.PublishKeepsInv | wiwi/auth/service.py:410-417 | a lookup publishes only a row read after the last eviction |
| AuthCache.InvalidateKeepsInv | wiwi/auth/service.py:459-469 | the same for the bulk invalidation |
| AuthCache.SweepThenInsert | wiwi/auth/service.py:223-240 | sweeping before each insertion keeps the cache within its cap without inventing entries |
| AuthCache.AuthService.Authenticate | wiwi/auth/service.py:356-383 | the first segment: a live cached answer, or a lookup with the generation captured before it |
| AuthCache.AuthService.LookupReturned | wiwi/auth/service.py:384-417 | the re-read loop's turn: look again if the generation moved, else sweep, store and answer |
| AuthCache.AuthService.SweepCache | wiwi/auth/service.py:223-240 | exactly the entries that survive a sweep, in order |
| AuthCache.AuthService.DropCached | wiwi/auth/service.py:471-482 | one entry gone, generation bumped even when it was absent |
| AuthCache.AuthService.InvalidateCache | wiwi/auth/service.py:459-469 | every entry gone, generation bumped once |
| AuthCache.AuthService.EvictCachedKey | wiwi/auth/service.py:802-809 | exactly the key's entries gone, generation untouched |
| SpendLedger.ConservationStep | wiwi/auth/spend_buffer.py:97-111 | one step moves charged money and reservations without loss, exactly unless it cancels a flush holding them or settles a negative batch |
| SpendLedger.Conservation | wiwi/auth/spend_buffer.py:133-169 | over every run charged = written + pending + in progress, and the reserved column = running + unflushed, with charges arriving during flushes and settles that raise |
| SpendLedger.CancelledFlushLosesCharge | wiwi/auth/spend_buffer.py:140-151 | from every start, one charge and one flush cancelled while it settles lose exactly that charge |
| SpendLedger.ClampIdle | wiwi/auth/service.py:825-836 | the max(..., 0) of a settle never discards anything |
| SpendLedger.BudgetBound | wiwi/auth/service.py:752-763 | spend plus reservations exceed the cap by at most what charges exceeded their own reservations, at every moment of every run |
| SpendLedger.BufferedSimulatesImmediate | wiwi/auth/spend_buffer.py:83-116 | every reservation the table accepts, a ledger without a buffer would have accepted too, up to that same excess |
| SpendLedger.InitEstablishesInv | wiwi/auth/service.py:332-342 | reclaiming reservations at start establishes the invariant |
| SpendLedger.ReservesExactly | wiwi/auth/service.py:752-763 | in every state a positive reservation succeeds exactly for an enabled key that is uncapped or has the headroom, raises the reserved column by exactly the amount, and touches no other key |
| SpendLedger.DisabledStaysPut | wiwi/auth/service.py:758 | over every run a disabled key gains no reservation |
| SpendLedger.MovesExactly | wiwi/auth/spend_buffer.py:91-111 | charges, releases and corrections move exactly their amounts, to and from the right column |
| SpendLedger.SettlesExactly | wiwi/auth/service.py:825-836 | a settled batch raises the spend by its cost and lowers the reserved column by what it held |
| SpendLedger.CachedSpendExactly | wiwi/auth/spend_buffer.py:97-104 | over every run without a leak the cached spend is the money spent, buffered charges included, if and only if nothing was buffered at the lookup and nothing charged through older objects; the cached reservations exceed the real ones by the like |
| SpendLedger.CachedStep | wiwi/auth/service.py:769-772 | each step moves cached figures and books together, up to charges through other objects |
| SpendLedger.SpendBuffer.ReserveBudget | wiwi/auth/service.py:730-773 | the conditional statement and the cached figure: headroom becomes a reservation, or nothing changes and the cached entry goes |
| SpendLedger.SpendBuffer.ReleaseBudgetReservation | wiwi/auth/service.py:775-800 | a reservation given back without spend, in row and cached figure |
| SpendLedger.SpendBuffer.ApplySpendTrueup | wiwi/auth/service.py:851-869 | an unconditional correction of row and cached figure, master and non-positive deltas excepted |
| SpendLedger.SpendBuffer.ChargeKey | wiwi/auth/spend_buffer.py:83-116 | the cap decision is made on the figures before the charge, which then move with it; the books take the charge either way |
| SpendLedger.SpendBuffer.Bill | wiwi/auth/spend_buffer.py:105-111 | the charge joins the pending batch of its key |
| SpendLedger.SpendBuffer.BeginFlush | wiwi/auth/spend_buffer.py:135-142 | one key's batch or all of them swapped out |
| SpendLedger.SpendBuffer.SettleSpend | wiwi/auth/service.py:811-836 | spend and release in one statement, or the batch kept as failed |
| SpendLedger.SpendBuffer.EndFlush | wiwi/auth/spend_buffer.py:153-163 | failed batches merge with what arrived meanwhile |
| OrderStatistics.Rank | wiwi/logging_core/hist.py:154-161 | the r-th smallest sample is at most x exactly when more than r samples are |
| OrderStatistics.RankIsStable | wiwi/logging_core/hist.py:142-161 | if every element moves by at most one step, so does every order statistic |
| BinTable.BinIndex | wiwi/logging_core/hist.py:48-67 | the binary search finds the first bin whose edge is above the sample |
| BinTable.BinErrorExactly | wiwi/logging_core/hist.py:70-82 | a sample is reported within one bin ratio exactly when it is not below the first edge or above the last midpoint by more than that |
| BinTable.EdgeExactly | wiwi/logging_core/hist.py:70-82 | a bin is reported as its geometric midpoint, the first as its upper edge, a missing one as 0 |
| BinTable.BinsAreMonotone | wiwi/logging_core/hist.py:48-67 | larger samples never land in lower bins |
| Histogram.AddValue | wiwi/logging_core/hist.py:85-89 | one sample adds one to its bin; no sample, no change |
| Histogram.HistCountsSamples | wiwi/logging_core/hist.py:85-89 | a histogram counts, per bin, exactly the samples it was built from |
| Histogram.Merge | wiwi/logging_core/hist.py:132-139 | the bin-wise sum of any number of histograms |
| Histogram.MergedSums | wiwi/logging_core/hist.py:132-139 | merged counts are sums and no empty bin appears |
| Histogram.MergeOfParts | wiwi/logging_core/hist.py:132-139 | merging the histograms of any parts is the histogram of all their samples |
| Histogram.OrderDoesNotMatter | wiwi/logging_core/hist.py:85-89 | permuted samples give the same histogram |
| Histogram.PercentileExactly | wiwi/logging_core/hist.py:171-182 | the percentile by counting, for p in (0, 1]: the midpoint of a bin that holds samples, up to which there are at least the fraction p of all and below which there are fewer |
| Histogram.PercentileBeyond | wiwi/logging_core/hist.py:174-177 | a fraction of 0 or less asks for the lowest bin with samples, one above 1 for the highest |
| Histogram.Percentile | wiwi/logging_core/hist.py:164-183 | the ascending scan computes it |
| Histogram.RankCommutes | wiwi/logging_core/hist.py:171-182 | that bin is the bin of the sample with that rank |
| Histogram.PercentileCommutes | wiwi/logging_core/hist.py:164-183 | for every list of samples the histogram's percentile is the midpoint of the bin of the exact nearest-rank percentile |
| Histogram.P95Exactly | wiwi/logging_core/hist.py:159-161 | the p95 by counting: one of the samples, with at least 95 % of them at or below it and fewer than 95 % below |
| Histogram.PercentileWithSamples | wiwi/logging_core/hist.py:142-161 | that p95 of the raw samples together with each counted bin's midpoint |
| Histogram.MixedRankIsClose | wiwi/logging_core/hist.py:142-161 | any order statistic over raw samples plus a histogram is within one bin ratio of the exact one, for any split |
| Histogram.ShownP95IsClose | wiwi/logging_core/hist.py:142-161 | the same for the shown p95 and any number of merged parts |
| Histogram.Decode | wiwi/logging_core/hist.py:101-129 | the tolerant decoder, entry by entry |
| Histogram.DecodeIsTolerant | wiwi/logging_core/hist.py:109-129 | whatever is stored, decoding gives valid bins holding exactly the usable counts |
| Histogram.RoundTrip | wiwi/logging_core/hist.py:92-129 | decoding an encoded histogram gives it back |
| Rollup.Accumulate | wiwi/logging_core/db_sink.py:685-709 | every additive column grows by what a query over the raw row would count |
| Rollup.DoomedAreIn | wiwi/logging_core/db_sink.py:642-647 | a row is doomed exactly if older than the cutoff or, under a boundary row, as old with a lower id; all others are kept |
| Rollup.AgeSweepExactly | wiwi/logging_core/db_sink.py:642-644 | a sweep by age keeps, in order, exactly the rows at least as young as its cutoff |
| Rollup.HourContains | wiwi/logging_core/db_sink.py:669-671 | a row is grouped under the full hour that contains it |
| Rollup.PageResumes | wiwi/logging_core/db_sink.py:652-665 | keyset pages hold the next doomed rows, none twice and none skipped |
| Rollup.RequestLog.Aggregate | wiwi/logging_core/db_sink.py:650-714 | the accumulators end up with exactly the doomed rows, per group, column and series |
| Rollup.RequestLog.ExistingHistograms | wiwi/logging_core/db_sink.py:551-586 | what is stored for the groups about to be written, decoded |
| Rollup.EncodeHists | wiwi/logging_core/db_sink.py:335-348 | each series is stored as the merge of collected and existing bins |
| Rollup.RequestLog.BuildPayload | wiwi/logging_core/db_sink.py:739-753 | one merged histogram column per collected group |
| Rollup.RequestLog.WriteGroups | wiwi/logging_core/db_sink.py:719-755 | the upsert adds, touches only collected groups and replaces their histogram column |
| Rollup.RequestLog.RollupAndPrune | wiwi/logging_core/db_sink.py:588-762 | every column of every group gains exactly the deleted rows' total, every series exactly their histogram, and by age exactly the rows older than the cutoff go |
| Rollup.WrittenRollsUp | wiwi/logging_core/db_sink.py:719-755 | the written payload accounts for all groups, collected or not |
| RollupRuns.SweepConserves | wiwi/logging_core/db_sink.py:588-627 | raw plus rolled-up total of every group and column is unchanged by a sweep |
| RollupRuns.RollupConservation | wiwi/logging_core/db_sink.py:588-762 | over every run of inserts and sweeps all totals and all distributions of everything ever logged are kept |
| RollupRuns.AgeSweepsAreExact | wiwi/logging_core/db_sink.py:642-647 | at every step of every run a sweep by age leaves no row older than its cutoff and removes none as young |
| RollupRuns.DashboardP95 | wiwi/logging_core/db_sink.py:617-625 | in every such state and for any choice of groups and hours the p95 read from raw rows and the merged stored bins is within one bin ratio of the p95 of every sample ever logged for them |
| LogCap.BoundaryRow | wiwi/logging_core/db_sink.py:779-792 | the selected row has exactly max_rows - 1 newer ones |
| LogCap.DeleteMatchesSelection | wiwi/logging_core/db_sink.py:641-647 | the delete predicate describes the complement of the selection, runs of equal timestamps included |
| LogCap.CapIsExact | wiwi/logging_core/db_sink.py:765-793 | exactly max_rows rows survive, each newer than each deleted one |
| LogCap.EnforceLogCap | wiwi/logging_core/db_sink.py:765-793 | the cap as one operation: kept rows, deleted count and rollup of the rest, or no change |
| ModelTails.SharedTailExactly | wiwi/logging_core/db_sink.py:302-325 | two names match exactly when one ends with the other at a segment, so equal-length names only when equal |
| ModelTails.Lookup | wiwi/cost/pricing.py:121-152 | the longest slash-tail with usable rates for this provider wins |
| ModelTails.MergeScopedExactly | wiwi/cost/pricing.py:164-187 | each rate is that of the account's override, else the type's, else the base; without an input or output rate there is no price |
| ModelTails.LiveKeysShareTail | wiwi/logging_core/db_sink.py:1258-1270 | every key a live lookup of type/model may use shares a tail with the model |
| ModelTails.SharedTailIsLive | wiwi/logging_core/db_sink.py:1258-1270 | and every key sharing one is used for some provider prefix |
| ModelTails.NeverACredit | wiwi/cost/pricing.py:90-119 | clamped token counts never make a negative charge |
| ModelTails.MarginalCost | wiwi/cost/pricing.py:90-119 | each further token of a class costs exactly that class's rate, or the input rate where it states none; a cached token inside the prompt is taken off the input |
| Reprice.LastOkIsLast | wiwi/logging_core/db_sink.py:1219-1249 | the serving attempt is the last successful one |
| Reprice.ServingExactly | wiwi/logging_core/db_sink.py:1219-1249 | the last successful attempt serves, or the last one if none succeeded |
| Reprice.CoversExactly | wiwi/logging_core/db_sink.py:1258-1270 | a price reaches an attempt through its model's name, else through the end of a longer deployment name |
| Reprice.RowTakesCostExactly | wiwi/logging_core/db_sink.py:994-1036 | a row logged at 0 takes what its tokens cost the serving attempt, if covered and rated and never below 0; any other row is untouched |
| Reprice.RollupTakesCostExactly | wiwi/logging_core/db_sink.py:1113-1135 | a rollup row that matches, has unpriced requests and comes to more than 0 gains that and has no unpriced ones left; any other is untouched |
| Reprice.PriceRow | wiwi/logging_core/db_sink.py:994-1036 | one row's update and its key's delta |
| Reprice.CandidatesResume | wiwi/logging_core/db_sink.py:980-992 | keyset pages over the unpriced rows resume where the last one ended |
| Reprice.RequestTables.RepriceLogs | wiwi/logging_core/db_sink.py:980-1044 | exactly the covered rows logged at cost 0 are repriced, and each key's delta is the rise of its rows |
| Reprice.RequestTables.RepriceRolledUp | wiwi/logging_core/db_sink.py:1055-1152 | exactly the matching rollup rows gain their cost and lose their unpriced counters |
| Reprice.RequestTables.RepriceUnpricedHistory | wiwi/logging_core/db_sink.py:947-1053 | the returned deltas equal the rise in logged plus rolled-up spend of every key |
| Reprice.RiseIsExact | wiwi/logging_core/db_sink.py:1031-1036 | what is handed out as a delta is the rise in the key's logged cost |
| Reprice.RollupRiseIsExact | wiwi/logging_core/db_sink.py:1131-1133 | the same for rolled-up cost |
| Reprice.SecondCallDoesNothing | wiwi/logging_core/db_sink.py:1064-1066 | a second call with the same price changes nothing and returns nothing |
| Reprice.PrefilterKeepsAll | wiwi/logging_core/db_sink.py:1077-1108 | the SQL narrowing drops no row the tail rule takes |
| Reprice.RollupThenRepriceExactly | wiwi/logging_core/db_sink.py:1123-1128 | pricing a rolled-up sum equals pricing its requests exactly when input is free or their uncached prompts add up |
| Reprice.HonestPromptsAgree | wiwi/logging_core/db_sink.py:1024-1025 | they do when prompts include their cached tokens |
| Reprice.ExcludedCachedDisagree | wiwi/logging_core/db_sink.py:1009-1023 | they do not for a Messages-shaped provider |
| StreamPump.Pump.FailStream | wiwi/core/gateway.py:2134-2168 | at most one error frame, and none after a terminal |
| StreamPump.Pump.ApplyDeltas | wiwi/core/gateway.py:2309-2375 | deltas are routed in order up to the first that stops the pump |
| StreamPump.Pump.ReadLive | wiwi/core/gateway.py:2377-2449 | reading with the client there: content of every line, and how the body was interrupted |
| StreamPump.Pump.ReadAfter | wiwi/core/gateway.py:2427-2442 | reading after the client left: no content, and when the drain ends |
| StreamPump.Pump.WindUp | wiwi/core/gateway.py:2484-2538 | truncation is decided before usage, finish and end go out |
| StreamPump.Pump.Connect | wiwi/core/gateway.py:2170-2284 | every refusal is boxed with ready set; a refreshed 401 goes on |
| StreamPump.Pump.PumpOnce | wiwi/core/gateway.py:1968-2640 | on every exit ready is set, and queue and box are what the attempt amounts to |
| StreamPump.Pump.Run | wiwi/core/gateway.py:1922-1955 | the backstop extends this to faults before the pump's own handlers |
| StreamContract.RetryXorStream | wiwi/core/gateway.py:2022-2036 | an attempt hands back an error or queues frames, never both |
| StreamContract.OnlyLastAttemptShows | wiwi/core/gateway.py:1390-1422 | however many attempts are made, the client sees the last one's frames alone |
| StreamContract.ExactlyOneEnding | wiwi/core/gateway.py:2377-2560 | while the client stays, content is followed by usage, finish and end if the upstream finished and nothing struck, and by one error otherwise |
| StreamContract.CompletedIsWhole | wiwi/core/gateway.py:2496-2538 | a completed stream carried every delta, the last finish reason and the reported usage |
| StreamContract.ContentReachesQueue | wiwi/core/gateway.py:2309-2375 | every piece of content, of whatever kind, is queued at its place, and nothing else is |
| StreamContract.AppliedExactly | wiwi/core/gateway.py:2309-2375 | deltas are applied up to the first failure, repeated text, exception or cancellation |
| StreamContract.LastOnesCount | wiwi/core/gateway.py:2309-2375 | the finish reason and the usage that count are the last ones sent |
| StreamContract.ErrorTellsCause | wiwi/core/gateway.py:2377-2476 | the error a client is sent tells what stopped its stream |
| StreamContract.AtMostOneTerminalExactly | wiwi/core/gateway.py:2427-2438 | whatever strikes there is at most one terminal, except exactly when the client left without a grace drain and then the flushed event failed, looped or raised, or pricing faulted, with the pump not cancelled |
| StreamContract.TwoErrors | wiwi/core/gateway.py:2436-2476 | a stream whose client gets two error frames |
| StreamClient.Take | wiwi/core/gateway.py:1546-1632 | one frame of the consumer: what is yielded, and whether a resume is wanted |
| StreamClient.Consume | wiwi/core/gateway.py:1519-1707 | the loop: it resumes after an error exactly while it may (mode, content so far, budget) and a resume is to be had, and puts out the attempts made |
| StreamClient.OutputIs | wiwi/core/gateway.py:1546-1574 | frame by frame the client has the opening, the failed attempts' content and what was taken of the current one |
| StreamClient.ClientSeesOneStream | wiwi/core/gateway.py:1519-1707 | one opening frame first, every attempt's content in order, exactly one terminal, last |
| StreamClient.UsageOfAllAttempts | wiwi/core/gateway.py:1674-1684 | the usage a client is shown is its one attempt's own, and after any resume the total of all attempts |
| ResumeUsage.LivesAreConsistent | wiwi/core/gateway.py:2827-2863 | however often a context is priced and wherever a pricing faults, usage record and frame agree and without them there is no cost, saving or hit |
| ResumeUsage.LastPricingCounts | wiwi/core/gateway.py:2827-2863 | the last pricing decides usage, cost, hit and savings, each as far as that pricing got |
| ResumeUsage.Context.PriceStream | wiwi/core/gateway.py:2827-2863 | frame, record, cost, hit and saving are published in this order, up to the fault |
| ResumeUsage.Context.MergeResume | wiwi/core/gateway.py:421-520 | folding one attempt in place: attempt records appended, usage adopted or added, frame, cost, hit and savings added |
| ResumeUsage.AccumulatedStreamUsage | wiwi/core/gateway.py:523-573 | the usage total over the originating and all resumed attempts, with the first stated convention |
| ResumeUsage.ShownIsTheSum | wiwi/core/gateway.py:523-573 | each shown count is the sum over all priced attempts, so is the cost, and any estimate makes an estimate |
| ResumeUsage.ShownEqualsBilled | wiwi/core/gateway.py:523-573 | for any attempts, however they were priced, the client is shown exactly the tokens, estimate flag and cost that are billed, or nothing and a cost of 0 |
| ResumeUsage.ConventionsAgreeExactly | wiwi/core/gateway.py:485-493 | folded record and shown frame count cached tokens alike exactly when the first priced attempt stated how, or none did |
| ResumeUsage.FoldedLog | wiwi/core/gateway.py:435-520 | every upstream attempt is logged in order, savings add up, and a prompt-cache hit of any attempt is one of the request |
| ResumeUsage.CaptureAgreesExactly | wiwi/server/app.py:3191-3192 | with capture on, the logged usage exceeds the shown one by the resumed attempts' tokens, so they agree exactly when those are 0 |
| ResumeUsage.CaptureCountsTwice | wiwi/server/app.py:3263-3280 | any two priced attempts: the second is shown once and logged twice |
| ResumeUsage.FoldPending | wiwi/core/gateway.py:1754-1759 | the fold over objects bills the same although the first record may be shared |
| SingleFlights.SingleFlightIsFaithful | wiwi/cache/singleflight.py:58-120 | under any schedule flights are the running leaders, one per key and bounded; a caller runs its own factory at most once, joins at most twice, and if served by a leader got what that leader's factory gave for the same key |
| SingleFlights.DuplicatesShare | wiwi/cache/singleflight.py:71-79 | in every reachable state a caller whose key is being led, with room for a waiter, waits for that leader without a call of its own |
| SingleFlights.HeadExactly | wiwi/cache/singleflight.py:63-95 | at the head of its loop a caller joins, leads or runs alone, by what is registered and how much room there is |
| SingleFlights.WakeExactly | wiwi/cache/singleflight.py:71-85 | a waiter leaves with its leader's outcome, or goes round again exactly if the leader was cancelled, and the key has one waiter fewer |
| SingleFlights.WaiterCancelledExactly | wiwi/cache/singleflight.py:71-85 | a cancelled waiter ends, unless its leader was cancelled first |
| SingleFlights.KeepsFlights | wiwi/cache/singleflight.py:87-115 | every event keeps flights and leaders in bijection |
| SingleFlights.LandKeepsFlights | wiwi/cache/singleflight.py:96-115 | a leader that ends removes its own flight and no other |
| SingleFlights.LedStays | wiwi/cache/singleflight.py:71-79 | what a waiter waits on keeps its key and, once there, its outcome |
| SingleFlights.SingleFlight.Head | wiwi/cache/singleflight.py:63-95 | join, lead or bypass, with the tables each leaves |
| SingleFlights.SingleFlight.Leave | wiwi/cache/singleflight.py:80-85 | a waiter's count goes down |
| SingleFlights.SingleFlight.Land | wiwi/cache/singleflight.py:113-115 | a leader's entries go |
| Circuits.BlockedExactly | wiwi/core/recovery.py:75-90 | a target is blocked exactly while its n-th trip since the last clear is younger than both cap and base * 2^(n-1), or it is dead; windows never shrink before a clear |
| Circuits.CircuitBreaker.Trip | wiwi/core/recovery.py:75-79 | one target's streak and window, no other's |
| Circuits.CircuitBreaker.Clear | wiwi/core/recovery.py:81-84 | one target starts over |
| Circuits.CircuitBreaker.MarkDead | wiwi/core/recovery.py:94-95 | one target is dead until cleared |
| Circuits.CircuitBreaker.IsBlocked | wiwi/core/recovery.py:86-89 | the two reasons to be blocked |
| Healer.CoolingNeverShortens | wiwi/core/recovery.py:564-571 | a throttled probe never shortens a cooling window, and bounds what it adds |
| Healer.RestoresExactly | wiwi/core/recovery.py:492-507 | over every history a key is restored exactly by a healthy probe of a sick key that completes enough healthy verdicts in its current run |
| Healer.RunIsSinceLastRestore | wiwi/core/recovery.py:509-526 | that run reaches back to the last restore or bad verdict and holds neither |
| Healer.CleanAnswersRestoreExactly | wiwi/core/recovery.py:112-137 | in terms of HTTP: only a 200 that is not an error object restores, a 429 leaves the run alone, every other answer ends it |
| Healer.DepRestoresExactly | wiwi/core/recovery.py:500-506 | the same for deployments, counting credited probes |
| Healer.BlameExactly | wiwi/core/recovery.py:509-545 | which verdict trips or closes whose circuit, and which leaves a key cooling or on probation |
| Healer.AnswersBlame | wiwi/core/recovery.py:112-137 | in terms of HTTP: 401 and 403 blame the key, silence, error objects and all other failures but a 429 the deployment |
| Healer.HealthHealer.ProbePair | wiwi/core/recovery.py:474-551 | what an answer does to the key and the deployment, and to no other target |
| Healer.HealthHealer.MaybeRestoreKey | wiwi/core/recovery.py:553-562 | a restore starts probation with a cleared circuit and streak, or nothing changes |
| Healer.HealthHealer.ExtendCooling | wiwi/core/recovery.py:564-571 | the new end of the window |
| AnthropicDecoder.Decoder.DecodeStreamEvent | wiwi/providers/anthropic_adapter.py:961-1181 | one frame's deltas and the decoder's new state |
| AnthropicDecoder.Decoder.FlushOpenTools | wiwi/providers/anthropic_adapter.py:944-959 | a close for every open call, by index |
| AnthropicDecoder.DecodeKeepsTrack | wiwi/providers/anthropic_adapter.py:1040-1072 | one frame, whatever its index, keeps every call on its lifecycle |
| AnthropicDecoder.CallsAreNested | wiwi/providers/anthropic_adapter.py:961-1181 | for arbitrary frames each index's output is a prefix of (Open Args* Close)* and the open set is exactly the unclosed calls |
| AnthropicDecoder.DoneClosesAll | wiwi/providers/anthropic_adapter.py:962-990 | after [DONE] every call is closed, with a finish reason exactly if one was open |
| AnthropicDecoder.MessageStopLeavesOpen | wiwi/providers/anthropic_adapter.py:1171-1172 | a native end leaves exactly the unstopped calls open |
| AnthropicDecoder.UnstoppedCall | wiwi/providers/anthropic_adapter.py:1171-1172 | a two-frame stream that ends with an open call |
| AnthropicDecoder.ArgumentsArriveWhole | wiwi/providers/anthropic_adapter.py:1115-1134 | whatever other calls are interleaved, a call's fragments come out whole and in order from its opening frame on |
| AnthropicDecoder.ShutCallsAreSilent | wiwi/providers/anthropic_adapter.py:1115-1134 | until its opening frame comes nothing is emitted for a call, whatever names it |
| AnthropicDecoder.ProseArrivesWhole | wiwi/providers/anthropic_adapter.py:1029-1114 | over every stream text, thinking, signatures and redacted blocks come out as they came in |
| AnthropicDecoder.ResultsNameTheirCalls | wiwi/providers/anthropic_adapter.py:1074-1098 | a provider-run result names the tool last opened under its id, wherever in the stream that was |
| AnthropicDecoder.UsageCarriesStart | wiwi/providers/anthropic_adapter.py:1151-1170 | the final usage carries the prompt and cache counts of the opening frame |
| AnthropicDecoder.IndexReadings | wiwi/providers/anthropic_adapter.py:1040-1072 | a missing index is block 0, a whole float its number; an unreadable one opens and feeds nothing and closes only the one open call |
| AnthropicEncoder.PairedHosted | wiwi/providers/anthropic_adapter.py:367-388 | the ids with a call and a result in one message, or for MCP in two adjacent ones |
| AnthropicEncoder.PairedExactly | wiwi/providers/anthropic_adapter.py:367-388 | what pairs an id, told from the parts: marked call and hosted result in one message, MCP call and MCP result in adjacent ones |
| AnthropicEncoder.EncodePart | wiwi/providers/anthropic_adapter.py:403-572 | one part's blocks under the pairing gate |
| AnthropicEncoder.EncodeMessages | wiwi/providers/anthropic_adapter.py:389-598 | every block in order under its role, adjacent output roles different, no message empty |
| AnthropicEncoder.BlocksOnWireExactly | wiwi/providers/anthropic_adapter.py:403-572 | for every message list, a text, image, document, call, result or thinking block is sent exactly if a part of a sent message yields it |
| AnthropicEncoder.BlocksFollow | wiwi/providers/anthropic_adapter.py:389-598 | a message's blocks follow those before it, tool results under the user's role, and no assistant turn is dropped |
| AnthropicEncoder.HostedOnWireExactly | wiwi/providers/anthropic_adapter.py:403-511 | for every message list, which hosted calls and results are sent |
| AnthropicEncoder.HostedPairsAreClosed | wiwi/providers/anthropic_adapter.py:353-388 | a hosted result goes out exactly for paired ids, and call and result go out together if and only if a paired id has a sent part of hosted type, or an unpaired one no such part without the mark |
| AnthropicEncoder.MarkedPairsAreClosed | wiwi/providers/anthropic_adapter.py:459-470 | that condition holds wherever marks and block types agree |
| AnthropicEncoder.PlainCallIsSplit | wiwi/providers/anthropic_adapter.py:468-472 | a message list whose hosted result goes out without a hosted call |
| AnthropicEncoder.UnmarkedCallEscapes | wiwi/providers/anthropic_adapter.py:468-478 | a message list for which one does |

## Left out

- HTTP, SSE byte parsing, SQL text, schema migrations, telemetry, CLI, deployment and the web interface.
- Floating-point rounding (`round(x, 8)`, `math.exp`): money and samples are reals and the bin table is any strictly increasing one with geometric midpoints.
- `ClineAutoRefresh.forget`, admin connect and a process crash between the upstream's answer and the record write.
- A record write that commits after its holder was cancelled is not an event: a cancelled write that has not landed never lands.
- Editing the key pool while a new token is handed out; the key rows it writes to the database are not part of the state.
- A refresh reply that is lost after the upstream consumed the grant is the event `LoseReply`, one of the steps that lose the grant.
- The owner check of `_lookup_db` (a disabled user), password and HMAC code: a row change stands for each.
- The synchronous release-then-`update_spend` path, deleting a key or editing its cap while requests run, and reclaiming another process's reservations.
- The statement of a reservation, release or correction and the update of the cached figure are one step, and a key has one cached entry.
- A settle that raises after its statement committed; `_pending_requests` and the near-cap flush triggers, which only decide when a flush starts.
- The legacy scalar p95 columns, retention by age, audit logs and mutual exclusion between retention sweeps (`sweep_locks`).
- Rows inserted concurrently with a sweep: the sweep's transaction is one step.
- Rollup.Accumulate: the collected histograms are values, so sharing of one dictionary object between groups is not captured.
- The serving model of a request row is an attribute of the row in `Rollup.dfy`; recovering it from an old deployment string is not part of this model.
- The messages a fold adds to the advisory channels, each once; the rate lookup behind a pricing, whose outcome is a parameter.
- Usage estimation, pricing into the context, key-pool and cooldown bookkeeping, tool-argument validation and the loop detector inside the pump: they appear as faults that may strike and as the `loops` mark of a delta.
- The consumer's reserved queue slot (it may drop a queued content frame of a client that lags behind), keep-alive pings and text coalescing.
- StreamContract.ExactlyOneEnding: nothing is claimed about which terminal a client that has left would have got.
- SingleFlights.SingleFlightIsFaithful: the waiter cap and the `joined` counter are not claimed, as an old waiter may decrement a newer flight's count.
- The healer's choice of pairs and its per-sweep credit: which probes carry credit is an input.
- Cache-control markers, document and image payload details, and every adapter but Anthropic's.

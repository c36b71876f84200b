# Verified model of the inference gateway, KV transfer and governed analytics

A Dafny 4.11 model of the parts of the repository that keep shared state or transform data, with proofs of what
they promise. `dafny verify dfyconfig.toml` checks all of it.

Each component is a specification on values (a state, its steps, and what holds in every run) and, where the
source changes state in place, a class or a loop proved to do exactly what the specification says.

| file | component |
|---|---|
| `Queueing.dfy` | per-worker dispatch queue: classes, slack, ageing, overtakes (`services/gateway/queueing.py`) |
| `Tenants.dfy` | sliding-window tenant quota with refunds (`services/gateway/tenants.py`) |
| `Workers.dfy` | worker occupancy, warm gate, ramp (`services/gateway/workers.py`) |
| `Lifecycle.dfy` | what a request takes and gives back along `serve_completion` (`services/gateway/main.py`) |
| `Fates.dfy` | what becomes of each request, told by its own events (`services/gateway/main.py`) |
| `Gateway.dfy` | handlers and dispatch queues together (`services/gateway/main.py`, `services/gateway/queueing.py`) |
| `Waiters.dfy` | no waiter is lost between handlers and queues (`services/gateway/main.py`, `services/gateway/queueing.py`) |
| `Quotas.dfy` | handlers and tenant quota together (`services/gateway/main.py`, `services/gateway/tenants.py`) |
| `Fleet.dfy` | admission and placement (`services/gateway/admission.py`, `services/gateway/placement.py`) |
| `Thinking.dfy` | one-shot and streaming `<think>` splitter (`services/app/app/llm.py`) |
| `Fallback.dfy` | governed calls with fallback aliases, agent call reservations (`services/app/app/llm.py`) |
| `CaptureSink.dfy` | deduplicating JSONL sink (`services/app/app/capture/sink.py`) |
| `Directory.dfy` | TTL + LRU + generation directory (`infra/inference/kv_transfer/directory.py`) |
| `Hop.dfy` | available / consumed / failed protocol (`infra/inference/kv_transfer/runtime.py`) |
| `Identity.dfy` | canonical JSON, UTF-8 and prefix identities (`infra/inference/kv_transfer/identity.py`) |
| `Sql.dfy` | the SQL fragment: holes, NULLs, joins, grouping, ordering |
| `QueryCompiler.dfy` | filters, dimensions, order and single-table queries (`query_compiler.py`, `query_spec.py`) |
| `Comparison.dfy` | segment and whole-population comparisons (`query_compiler.py`) |
| `Envelope.dfy` | row and byte truncation (`services/dataset_spike/dataset_spike/analytics.py`) |
| `Basics.dfy` | options, counting and filtering over sequences, the order of strings |

## Assumptions about the environment

- The clock is monotone; times, ratios and money are exact (`real`), not floating point.
- Code between two awaits is one step. In the queue, `TimeoutError` is raised only for a future that was not
  granted; a cancelled waiter that was granted gives its ticket back, as queueing.py:137-141 does.
- In `serve_completion`, reading an error body does not raise and the handler is cancelled only where main.py:611
  handles it; overflow is only tried for status 503 and 529.
- A worker scrape counts every unfinished dispatch that is at least a grace window old.
- The sink's file ends in a newline when the first process opens it (no write was cut short), a record is encoded
  on one line that reads back with its key, and nothing but sinks writes to the file.
- Emitting an evidence event does not raise.
- The database orders cells linearly in each direction, NULLs included; aggregates depend on the multiset of trips
  only. SHA-256, `lower`, `LIKE`, date functions and casts to text are uninterpreted.

## Where the code and its documentation differ

- queueing.py:9-14 says that batch and long work cannot wait forever. A dispatch is charged as an overtake only to
  waiters with a strictly earlier timestamp, so requests stamped with the same clock reading pass a waiter without
  limit (`Queueing.TiedArrivalsStarve`). With a positive gain each such request costs one dispatch and all others
  together a bounded number (`Queueing.BoundedDispatches`); without it the overtakes of one waiter are unbounded
  (`Queueing.NoAgingStarves`, `Queueing.OvertakesAreBoundedIff`).
- workers.py:93-98 calls `occupied` a safe upper bound. With a grace window of 0, which the configuration accepts, a
  dispatch at the reading of a scrape is missed (`Workers.OccupiedIsSafeIff`). With a quota window of 0 or less,
  tenants.py:89-91 charges a grant that lies in no window until the next request (`Tenants.TokensAreExactIff`).
- runtime.py:307-308 promises that a failed forward cannot be confirmed later. Between the announcement at
  runtime.py:252 and the append at 253-254 another thread's boundary does not see the retrieval, and a later
  confirmation reports it consumed (`Hop.BoundaryMissesAnnounced`, `Hop.ConsumedDespiteFailureIff`).
- placement.py:134-140 refuses a batch request that admission accepted if the only worker below the cap is not one
  of the workers with enough free KV (`Fleet.AdmittedBatchCanBeRefused`); `Fleet.AdmittedBatchIsPlacedIff` gives the
  exact condition.
- sink.py:61-65 skips lines that raise `ValueError`. A line holding valid JSON that is not an object raises
  `AttributeError` instead, the offset does not advance, and every later write is dropped
  (`CaptureSink.NoDuplicates`, `CaptureSink.WriteIsExact`).
- sink.py:83-86 appends to whatever the file ends in. After a write that was cut short the next record is glued to
  the torn line and lost, while its sink goes on calling it a duplicate (`CaptureSink.TornLineSwallows`); with a final
  newline this cannot happen.
- directory.py:243-244 compares generations again although no record without a stale reason can have an old one
  (`Directory.FreshOnlyByAge`).

## Model

| member | source | states |
|---|---|---|
| `Queueing.BoundedOvertaking` | services/gateway/queueing.py:99-165 | in every run with `aging_gain > 0`, a waiter that had time left when queued is jumped at most max(max_overtakes, ceil((deadline - enqueued)/aging_gain)) + max_depth - 2 times |
| `Queueing.BoundedDispatches` | services/gateway/queueing.py:9-14 | anti-starvation: a waiter still waiting has seen at most T + 2*max_depth - 3 dispatches since any earlier point, T as above, plus one for each request that arrived since at its own clock reading; nothing else is assumed of the run |
| `Queueing.TiedArrivalsStarve` | services/gateway/queueing.py:161-163 | those requests do count: for every configuration with a slot, two places and a positive timeout, every class and length of waiter and every n, a run in which n requests with the waiter's timestamp pass it while its overtake count stays 0 |
| `Queueing.NoAgingStarves` | services/gateway/queueing.py:99-104 | for every such configuration with aging gain 0 or less, every class and length of waiter and every n, a run in which it is overtaken n times |
| `Queueing.OvertakesAreBoundedIff` | services/gateway/queueing.py:99-165 | over all configurations: the overtakes of waiters with a given time to wait are bounded in every run if and only if the aging gain is positive or there is no room to overtake (no slot, no second place, no time) |
| `Queueing.StillWaits` | services/gateway/queueing.py:106-165 | a waiter that has left the queue does not come back |
| `Queueing.SlotSafety` | services/gateway/queueing.py:83-165 | in every reachable state in-flight = granted unreleased tickets <= max_inflight, queue length <= max_depth, and a non-empty queue means all slots are busy |
| `Queueing.DispatchOrder` | services/gateway/queueing.py:99-165 | exactly one waiter is next: a batch request overtaken fewer than max_overtakes times only if every waiter is such a request, among equals in that a long one overtaken fewer times only if every one is, then the least deadline - aging_gain * passed_over, then the earliest enqueued, then the first in the list; it leaves, gets the slot unless its future is done, and is charged as an overtake to exactly the strictly older waiters |
| `Queueing.AdmissionIsExact` | services/gateway/queueing.py:106-131 | an arrival is granted at once exactly when nobody waits and a slot is free, queued at the end exactly when not granted and the list is shorter than max_depth, and otherwise refused without a trace; its effective deadline, and whether it waits with no time left |
| `Queueing.GrantIsMinimal` | services/gateway/queueing.py:155-165 | each dispatch takes a live waiter, and no waiter has a smaller key at any clock reading; what the key orders by is DispatchOrder |
| `Queueing.OrderIgnoresClock` | services/gateway/queueing.py:99-104 | although slack is taken at dispatch time, the order of two items is the same for every clock reading |
| `Queueing.FarAheadBeatsNewer` | services/gateway/queueing.py:99-104 | a waiter T overtakes ahead of a newer live one precedes it, whatever their classes, lengths and deadlines |
| `Queueing.StepKeepsInv` | services/gateway/queueing.py:106-165 | acquire, timeout, cancellation and release each keep the queue invariant: sorted by arrival, overtakes non-increasing along the queue, the overtaking potential bounded, no idle slot beside a waiter |
| `Queueing.ExecKeepsInv` | services/gateway/queueing.py:106-165 | that invariant in every reachable state |
| `Queueing.Best` | services/gateway/queueing.py:157-157 | index of the first waiter whose key is minimal |
| `Queueing.WorkerQueues.Acquire` | services/gateway/queueing.py:106-131 | free slot, full queue or new waiter at the end: the new state is that of the specification |
| `Queueing.WorkerQueues.Remove` | services/gateway/queueing.py:145-147 | the first waiter equal to the item leaves, or nothing changes |
| `Queueing.WorkerQueues.Earliest` | services/gateway/queueing.py:157-157 | a loop finds the first waiter with a minimal key |
| `Queueing.WorkerQueues.AgeOlder` | services/gateway/queueing.py:161-163 | every strictly older waiter is charged one overtake, nobody else |
| `Queueing.WorkerQueues.PumpOnce` | services/gateway/queueing.py:155-165 | one turn of the dispatch loop is the dispatch whose choice and effect DispatchOrder states |
| `Queueing.WorkerQueues.Pump` | services/gateway/queueing.py:153-165 | the loop equals draining until no slot or no waiter is left |
| `Queueing.WorkerQueues.Free` | services/gateway/queueing.py:149-151 | one slot back, then draining |
| `Queueing.QueueTicket.Release` | services/gateway/queueing.py:66-80 | idempotent: a slot is given back by the first release only |
| `Tenants.WindowSafety` | services/gateway/tenants.py:40-93 | for every history, window length and t not before its last event, tokens granted in (t - window, t] and not refunded fit the budget, with equal entries and late refunds |
| `Tenants.CountersExact` | services/gateway/tenants.py:78-93 | `tokens` is always what is charged in the window and `active` the number of leases out, at most max_concurrency |
| `Tenants.GrantedIff` | services/gateway/tenants.py:75-93 | after every history a lease is granted exactly when fewer than max_concurrency are out and the tokens, with those granted in the window and not refunded, fit the budget; concurrency is checked first; the retry time is the first whole second at which the oldest charged lease has left the window, 1 if none is charged |
| `Tenants.TokensAreExactIff` | services/gateway/tenants.py:78-93 | `tokens` is exact in every history if and only if the window is positive or no tokens can be granted at all |
| `Tenants.PruneIsExact` | services/gateway/tenants.py:81-82 | pruning drops exactly the expired entries and their tokens and changes no later window sum |
| `Tenants.RefundKeepsCoupled` | services/gateway/tenants.py:46-48 | a refund takes exactly one entry equal to the lease's own, and none exactly when it has aged out |
| `Tenants.ReleaseKeepsInv` | services/gateway/tenants.py:40-48 | releasing, with or without refund, first or again, keeps the bucket consistent with its history |
| `Tenants.ExecKeepsInv` | services/gateway/tenants.py:40-93 | window, counters and history agree after every sequence of acquires and releases |
| `Tenants.RetryFreesOldest` | services/gateway/tenants.py:86-88 | waiting for the advertised retry time lets the oldest entry expire |
| `Tenants.Lease.Release` | services/gateway/tenants.py:40-48 | idempotent: the first call gives the slot back and, on refund, takes one equal entry out of the window |
| `Tenants.TenantQuota.Acquire` | services/gateway/tenants.py:75-93 | prune, then concurrency, then budget, then charge, on the bucket of the tenant and no other |
| `Workers.OccupiedIsSafe` | services/gateway/workers.py:90-131 | if each scrape counts every unfinished dispatch at least a grace window old, `occupied` never under-counts live dispatches |
| `Workers.OccupiedCounts` | services/gateway/workers.py:90-131 | `occupied` is exact over the events: the running count of the last scrape and, once each, the unfinished dispatches made later than a grace window before it; without a scrape, all unfinished ones |
| `Workers.RecentAreUnfinished` | services/gateway/workers.py:107-131 | the recorded dispatches are exactly those not finished since, each under its own token with its time |
| `Workers.OccupiedIsSafeIff` | services/gateway/workers.py:90-131 | `occupied` never under-counts in any run if and only if the grace window is positive |
| `Workers.WithoutGraceOneIsMissed` | services/gateway/workers.py:100-105 | with grace 0 a dispatch at the very reading of a scrape is missed |
| `Workers.WarmGateSafety` | services/gateway/workers.py:186-322 | with the gate on, a warm worker is healthy, has enough good scrapes in a row and was warmed in its current health epoch; a set cap means a warm, returning worker with the cap of its ramp stage; when the gate opens is WarmIff |
| `Workers.WarmIff` | services/gateway/workers.py:226-322 | over events: with the gate on a worker is warm exactly when, since its last failed scrape or fault, a probe began and ended well with enough good scrapes before its end, and warm_count is how often that happened; with the gate off, exactly when a scrape ever succeeded |
| `Workers.ExecMatches` | services/gateway/workers.py:226-322 | in every history streak, probe, warmth and warm count are what the events alone say: in particular a cold worker with no probe out gets one at the scrape that makes enough |
| `Workers.GateOpens` | services/gateway/workers.py:237-322 | from every state in which the worker is cold and no probe runs, enough good scrapes and a probe that begins and succeeds make it warm |
| `Workers.PassingStartsRamp` | services/gateway/workers.py:253-322 | a probe that ends well warms the worker and counts; from the second time on, with steps configured, the cap is the first step, the stage 0 and the next interval starts one step later; the first time there is no cap |
| `Workers.RampHolds` | services/gateway/workers.py:260-276 | under pressure, or before its interval is over, the ramp keeps its cap and stage |
| `Workers.StepKeeps` | services/gateway/workers.py:186-322 | scrapes, faults and probe starts and ends keep that invariant, in any order |
| `Workers.ExecKeeps` | services/gateway/workers.py:186-322 | the invariant in every reachable state |
| `Workers.RampRunsItsCourse` | services/gateway/workers.py:260-276 | n unpressured intervals move the cap n steps and end an n-step ramp, no fewer do, and each sets the next interval from its own reading |
| `Workers.ServingSnapshots` | services/gateway/workers.py:199-212 | while ramping, exactly the open warm workers if there is one; otherwise exactly the warm ones, all workers counting as warm with the gate off |
| `Workers.WorkerSnapshot.NoteDispatch` | services/gateway/workers.py:107-113 | a new token, recorded with its time |
| `Workers.WorkerSnapshot.NoteFinish` | services/gateway/workers.py:130-131 | the token is forgotten, again is a no-op |
| `Workers.WorkerSnapshot.CountOccupied` | services/gateway/workers.py:90-105 | the counting loop equals running plus the young dispatches |
| `Workers.WorkerSnapshot.Scraped` | services/gateway/workers.py:237-251 | a good scrape updates load, streak, ramp and the legacy warm flag |
| `Workers.WorkerSnapshot.ScrapeLost` | services/gateway/workers.py:226-236 | a failed scrape opens a new health epoch and cools the worker |
| `Workers.WorkerSnapshot.ProbeDone` | services/gateway/workers.py:285-322 | the answer is ok exactly when the worker is warmed and counted, stale when something happened to it since the probe began, error when the probe failed; the probe is gone; what this means over events is WarmIff |
| `Workers.WorkerSnapshot.Fault` | services/gateway/workers.py:186-193 | a fault opens a new health epoch, so a probe in flight cannot warm the worker |
| `Lifecycle.CountersAreExact` | services/gateway/main.py:583-803 | in every interleaving of any number of requests, pending, inflight, inflight_tokens, slots and active leases equal the sums over the requests holding them, and the recorded dispatch tokens are those of the dispatched unfreed requests |
| `Lifecycle.GivenBackExactlyOnce` | services/gateway/main.py:379-803 | a finished request has returned lease and ticket, was counted once, and was refunded if and only if it did not overflow and was never dispatched or has a recorded status of 500 or more; which status that is, is OutcomeFollowsStory |
| `Lifecycle.AllDoneAllZero` | services/gateway/main.py:583-803 | when every request is done every counter is back at zero |
| `Lifecycle.StepKeepsInv` | services/gateway/main.py:379-803 | each await-free segment of the handler, on every exit, keeps the accounting invariant |
| `Lifecycle.ExecKeepsInv` | services/gateway/main.py:379-803 | the accounting invariant after every sequence of moves |
| `Lifecycle.LateStepIsFair` | services/gateway/main.py:656-803 | from dispatch on, every counter moves by exactly what the request's own share of it does |
| `Lifecycle.EarlyStepIsFair` | services/gateway/main.py:379-613 | the same before dispatch |
| `Lifecycle.Exchange.FreeWorker` | services/gateway/main.py:656-670 | idempotent: inflight, tokens, dispatch record and slot go back together, once |
| `Lifecycle.Exchange.Finish` | services/gateway/main.py:672-678 | idempotent: the lease goes back once, refunded exactly for a status of 500 or more |
| `Fates.OutcomeFollowsStory` | services/gateway/main.py:379-803 | told by a request's own events alone: it is done exactly when its story is over; its lease, if an event took one, is then back, refunded exactly when it was refused, left while waiting or ended with 500 or more; the final status is that of its worker's answer, of the failed open, of the end of its stream, 499 for the cleanup, or that of the answer its failed overflow was for; answered once, or never if the client left |
| `Fates.CountersFollowStories` | services/gateway/main.py:583-803 | pending, inflight, inflight_tokens, slots, active leases and the number of dispatch tokens are what the stories of all requests add up to, in every interleaving |
| `Fates.StoriesFit` | services/gateway/main.py:379-803 | after every sequence of moves the handler's flags agree with the story of each request |
| `Fates.PossibleIff` | services/gateway/main.py:379-803 | a segment of the handler can run exactly when its event can follow in the story |
| `Fates.GrantFollowsStory` | services/gateway/main.py:465-803 | with the tenant quota: the grant for each lease is released in its bucket exactly when the story is over, and refunded exactly when the request was refused, left while waiting or ended with 500 or more |
| `Gateway.HandlerIsBounded` | services/gateway/main.py:583-803 | handlers and queues together, in every interleaving: the slots requests hold of a worker are the in-flight count of its queue, at most max_inflight, and all of them are held while somebody is queued there |
| `Gateway.TicketsHaveOneHolder` | services/gateway/main.py:583-670 | every ticket a queue counts as held is held by exactly one request: none is lost or handed out twice |
| `Gateway.AllDoneAllFree` | services/gateway/main.py:583-803 | when every request is done every queue has all its slots back |
| `Waiters.NoWaiterIsLost` | services/gateway/main.py:583-613 | handlers and queues together, in every interleaving: a request that waits for a worker stands in the queue of that worker, alive, until it is granted a slot, its client leaves, or its own time is up |
| `Waiters.WaitsOnlyForHeldSlots` | services/gateway/main.py:583-613 | and while it waits, every slot of that worker is held by a request |
| `Waiters.PassOnKeepsLine` | services/gateway/queueing.py:149-165 | passing a slot on grants a live waiter or leaves it in line, whatever else the dispatch loop takes off |
| `Gateway.StepKeepsInv` | services/gateway/main.py:379-803 | every segment of every handler, with what it does to the queue, keeps requests and queues linked |
| `Gateway.PassOnKeepsInv` | services/gateway/queueing.py:149-165 | a slot given back is passed on only to requests that wait for it |
| `Quotas.LeasesAreBounded` | services/gateway/main.py:465-803 | handlers and quota together: the leases requests hold are the bucket's `active`, at most max_concurrency |
| `Quotas.FinishedIsSettled` | services/gateway/main.py:379-803 | the grant of a finished request is released in its bucket, and refunded if and only if it did not overflow and was never dispatched or has a recorded status of 500 or more; by its events alone, GrantFollowsStory |
| `Quotas.TokensFitTheWindow` | services/gateway/main.py:465-803 | in every interleaving, tokens of requests granted within any window and not refunded fit the budget |
| `Quotas.StepKeepsInv` | services/gateway/main.py:379-803 | every segment of every handler keeps leases and grants linked |
| `Thinking.StreamEqualsSplit` | services/app/app/llm.py:128-208 | for every sequence of chunks, what feed and flush output, visible and reasoning, equals split_thinking of the whole text |
| `Thinking.NothingRetracted` | services/app/app/llm.py:160-208 | at any moment and for every continuation, what was output is a prefix of the final split, and at most 7 characters are held back |
| `Thinking.FeedAllIsExact` | services/app/app/llm.py:171-198 | feeding chunks never changes how any continuation will be split |
| `Thinking.ReleaseIsExact` | services/app/app/llm.py:179-190 | text released while a possible tag is held back cannot belong to a tag, whatever follows |
| `Thinking.DrainIsExact` | services/app/app/llm.py:176-197 | the feeding loop preserves the final split |
| `Thinking.DrainSettles` | services/app/app/llm.py:176-197 | after the loop less than one tag is pending and it holds no tag |
| `Thinking.ScanDealsSegments` | services/app/app/llm.py:128-150 | the split deals the alternating segments of the text to the two outputs |
| `Thinking.CutIsUnique` | services/app/app/llm.py:128-150 | a text has at most one well-formed cutting into segments |
| `Thinking.EveryTextIsCut` | services/app/app/llm.py:128-150 | every text has a well-formed cutting, including an unterminated block |
| `Thinking.SplitThinking` | services/app/app/llm.py:128-150 | the loop over the remaining text computes the split |
| `Thinking.ThinkingSplitter.Feed` | services/app/app/llm.py:171-198 | new state and visible output of one chunk |
| `Thinking.ThinkingSplitter.Flush` | services/app/app/llm.py:200-208 | the held-back text goes to the output of the current mode |
| `Directory.Conservation` | infra/inference/kv_transfer/directory.py:63-255 | new keys inserted = size + capacity evictions + TTL evictions + successful invalidations; size <= capacity; keys are distinct and in order of last access |
| `Directory.LookupIsFresh` | infra/inference/kv_transfer/directory.py:118-163 | one way: PRESENT, REMOTE and PARTIAL are reported only for a belief no invalidation, namespace invalidation or worker change since its upsert covers, younger than the TTL, even if a generation string returns; MISSING means no record of the prefix; the converse is LookupIsDecided |
| `Directory.LookupStands` | infra/inference/kv_transfer/directory.py:63-163 | the same over the list of calls alone: what a lookup reports was stored by an accepted upsert of that key in the list, no later call stored it anew, invalidated it or its namespace or renewed its worker, and it is younger than the TTL |
| `Directory.LookupIsDecided` | infra/inference/kv_transfer/directory.py:118-163 | every answer over the list of calls: INCOMPATIBLE exactly for another namespace; a record held for the destination whose upsert stands is PRESENT or PARTIAL by its completeness while younger than the TTL, with its tokens and bytes, and then most recent, else STALE with ttl_expired and gone; one that was taken back is STALE with the reason of the first call that did; without one, MISSING exactly when no location has the prefix, and a standing young record elsewhere is always found |
| `Directory.MarksAreWithdrawals` | infra/inference/kv_transfer/directory.py:63-235 | every record carries exactly the reason of the first call that took it back since it was stored, or none |
| `Directory.ReadsDropOnlyExpired` | infra/inference/kv_transfer/directory.py:118-205 | lookups and confirmations drop nothing but expired records of the prefix they read |
| `Directory.BeliefsStand` | infra/inference/kv_transfer/directory.py:63-227 | the beliefs used above are exactly what stands among the calls |
| `Directory.ConfirmIsFresh` | infra/inference/kv_transfer/directory.py:165-205 | AVAILABLE means a complete, current, unexpired belief; partial, missing and stale ones are told apart |
| `Directory.ConfirmStands` | infra/inference/kv_transfer/directory.py:63-205 | the same for confirm |
| `Directory.ConfirmIsDecided` | infra/inference/kv_transfer/directory.py:165-205 | every confirmation over the list of calls: absent exactly when nothing is held, available or partial by completeness while a standing upsert is younger than the TTL, expired and dropped after that, and with the reason of its withdrawal, untouched, otherwise |
| `Directory.FreshOnlyByAge` | infra/inference/kv_transfer/directory.py:237-247 | a record without a stale reason is stale only by age: the generation check never decides |
| `Directory.SeekIsExact` | infra/inference/kv_transfer/directory.py:142-157 | the remote search answers for the most recently used record of the prefix that is not stale, and gives up only when there is none |
| `Directory.EvictsLeastRecent` | infra/inference/kv_transfer/directory.py:99-116 | storing evicts at most one other record, one of the least recently accessed, never the key just stored |
| `Directory.ExecKeeps` | infra/inference/kv_transfer/directory.py:63-255 | the directory invariant after every sequence of calls |
| `Directory.StepKeeps` | infra/inference/kv_transfer/directory.py:63-255 | each public operation keeps it |
| `Directory.MetadataDirectory.ObserveWorker` | infra/inference/kv_transfer/directory.py:63-74 | the new generation; on a change the location's fresh records are marked stale, and their number is returned |
| `Directory.MetadataDirectory.UpsertRecord` | infra/inference/kv_transfer/directory.py:76-116 | refusals leave everything unchanged; otherwise the record goes to the end and the front is evicted while over capacity |
| `Directory.MetadataDirectory.LookupPrefix` | infra/inference/kv_transfer/directory.py:118-163 | the state and answer that LookupIsDecided characterises |
| `Directory.MetadataDirectory.LookupRemote` | infra/inference/kv_transfer/directory.py:142-163 | the backward search loop equals its recursive specification |
| `Directory.MetadataDirectory.ConfirmPrefix` | infra/inference/kv_transfer/directory.py:165-205 | the state and answer that ConfirmIsDecided characterises |
| `Directory.MetadataDirectory.InvalidatePrefix` | infra/inference/kv_transfer/directory.py:207-217 | the record leaves, if there is one |
| `Directory.MetadataDirectory.InvalidateCompatibility` | infra/inference/kv_transfer/directory.py:219-227 | exactly the fresh records of the namespace are marked, and their number is returned |
| `Directory.MetadataDirectory.MarkStale` | infra/inference/kv_transfer/directory.py:229-235 | the marking loop changes exactly the fresh records that match |
| `Directory.MetadataDirectory.RecordOutcome` | infra/inference/kv_transfer/directory.py:237-247 | outcome of a record, with the TTL counter |
| `Directory.MetadataDirectory.TouchAt` | infra/inference/kv_transfer/directory.py:249-255 | a touched record is last in order |
| `Hop.EveryRetrievalIsAccounted` | infra/inference/kv_transfer/runtime.py:190-324 | in every run: announced = consumed + failed + pending + on their way, and each retrieval has at most one final event |
| `Hop.ConsumedIffConfirmedFirst` | infra/inference/kv_transfer/runtime.py:282-324 | a final event says consumed if and only if the first boundary after the retrieval entered the pending list is a confirmation; it has all expected tokens and positive bytes |
| `Hop.ConsumedDespiteFailureIff` | infra/inference/kv_transfer/runtime.py:252-324 | counted from the announcement instead: every boundary between announcement and final boundary fell before the entry into the list, so a retrieval is consumed in spite of a failing boundary since its announcement exactly when it is confirmed and such a boundary fell between announcement and entry |
| `Hop.BoundaryMissesAnnounced` | infra/inference/kv_transfer/runtime.py:252-254 | a run with that gap: announced, a boundary that fails everything pending, entry, confirmation, consumed |
| `Hop.PromptlyConsumedIff` | infra/inference/kv_transfer/runtime.py:190-324 | where every retrieval enters the list before anything else happens, a final event says consumed if and only if the first boundary after the announcement is a confirmation |
| `Hop.AccountedBetweenCalls` | infra/inference/kv_transfer/runtime.py:190-324 | there, between calls, announced = consumed + failed + pending |
| `Hop.CallsArePrompt` | infra/inference/kv_transfer/runtime.py:190-324 | runs made of whole retrieve calls are such runs |
| `Hop.FinalsFollowABoundary` | infra/inference/kv_transfer/runtime.py:282-324 | every final event comes from the first boundary after its retrieval entered the list |
| `Hop.ExecConserves` | infra/inference/kv_transfer/runtime.py:190-324 | conservation for every choice of retrievals, in every run |
| `Hop.ExecKeepsInv` | infra/inference/kv_transfer/runtime.py:190-324 | the protocol invariant in every run |
| `Hop.SettleIsSwapAndReports` | infra/inference/kv_transfer/runtime.py:287-324 | one uninterrupted boundary call is a swap followed by its reports |
| `Hop.Judge` | infra/inference/kv_transfer/runtime.py:199-236 | a retrieval is announced exactly if it loaded all expected tokens, some tokens and some bytes |
| `Hop.KVHopRuntime.Retrieve` | infra/inference/kv_transfer/runtime.py:190-256 | a full retrieval with bytes is announced, appended and returned; any other adds one failure event with its tokens, bytes and reason and returns nothing |
| `Hop.KVHopRuntime.Settle` | infra/inference/kv_transfer/runtime.py:287-324 | the list is emptied and each entry gets one final event, in order |
| `Hop.KVHopRuntime.BeginForward` | infra/inference/kv_transfer/runtime.py:282-285 | unconfirmed retrievals fail |
| `Hop.KVHopRuntime.ConfirmForwardConsumption` | infra/inference/kv_transfer/runtime.py:287-305 | pending retrievals are consumed |
| `Hop.KVHopRuntime.FailForward` | infra/inference/kv_transfer/runtime.py:307-324 | pending retrievals fail with the reason |
| `Identity.EqualIdentitiesIff` | infra/inference/kv_transfer/identity.py:77-102 | up to a SHA-256 collision, two identities are equal if and only if the token ids and all compatibility fields are |
| `Identity.BuildIsExact` | infra/inference/kv_transfer/identity.py:77-102 | no token and a negative token are told apart and refused; otherwise the value is the hash of bytes that read back as the version, the token ids in order and the eleven compatibility fields under their own sorted names, the namespace that of version and fields, and the token count the number of tokens |
| `Identity.SpecIsNamed` | infra/inference/kv_transfer/identity.py:29-47 | each of the eleven fields is found under its own name, the names strictly sorted |
| `Identity.EqualNamespacesIff` | infra/inference/kv_transfer/identity.py:48-53 | the same for compatibility namespaces |
| `Identity.DomainsAreSeparate` | infra/inference/kv_transfer/identity.py:48-102 | the bytes hashed for an identity are never those hashed for a namespace |
| `Identity.CanonicalIsInjective` | infra/inference/kv_transfer/identity.py:105-112 | canonical JSON bytes are equal if and only if the values are |
| `Identity.EncodingIsInjective` | infra/inference/kv_transfer/identity.py:105-112 | different JSON values have different texts |
| `Identity.ValueReadsBack` | infra/inference/kv_transfer/identity.py:105-112 | round trip: a reader written from RFC 8259 reads every value back from its compact text, whatever follows |
| `Identity.CharReadsBack` | infra/inference/kv_transfer/identity.py:105-112 | every character is read back from its escape, and takes the six-character form only where there is no shorter one |
| `Identity.Utf8ReadsBack` | infra/inference/kv_transfer/identity.py:105-112 | round trip: a reader written from RFC 3629 reads every text back from its bytes |
| `Identity.EncodingIsPrefixFree` | infra/inference/kv_transfer/identity.py:105-112 | no encoding of a value is the start of another one before a delimiter |
| `Identity.NumberIsPrefixFree` | infra/inference/kv_transfer/identity.py:105-112 | the same for decimal numbers |
| `Identity.QuotedIsPrefixFree` | infra/inference/kv_transfer/identity.py:105-112 | the same for strings with the escapes of section 7 of RFC 8259 |
| `Identity.Utf8IsInjective` | infra/inference/kv_transfer/identity.py:112-112 | UTF-8 encoding is injective |
| `Identity.Build` | infra/inference/kv_transfer/identity.py:77-102 | an identity is built exactly for non-empty, non-negative token ids |
| `CaptureSink.NoDuplicates` | services/app/app/capture/sink.py:52-93 | any number of sinks, any interleaving of locked writes and faults: no key gets a second record beyond those the file began with, a refreshed index equals the keys of a full re-read, and a file with a line that makes reading raise is never written again |
| `CaptureSink.WriteIsExact` | services/app/app/capture/sink.py:68-93 | without a fault a write is dropped exactly when a line makes reading raise or the record cannot be encoded; a duplicate is answered only when the key is in the file; a written record is one more line with a new key; the counter counts drops |
| `CaptureSink.RefreshIsReread` | services/app/app/capture/sink.py:52-66 | the incremental refresh finds the keys of the whole file, and fails exactly when some line of it raises |
| `CaptureSink.SameAsNew` | services/app/app/capture/sink.py:52-66 | an old sink's refresh and a new sink's first one give the same keys |
| `CaptureSink.SplitConcat` | services/app/app/capture/sink.py:59-61 | splitting lines on either side of a newline is independent |
| `CaptureSink.SplitCuts` | services/app/app/capture/sink.py:61-65 | the lines hold no line break and, put together with their line breaks, are the text; \r\n is one break and only the last line may be without one |
| `CaptureSink.AppendAdds` | services/app/app/capture/sink.py:83-86 | appending a record adds its line and its key and disturbs no other line |
| `CaptureSink.TornLineSwallows` | services/app/app/capture/sink.py:59-66 | after any write cut short, a record glued to the unreadable torn line is lost, and the sink that wrote it answers Duplicate although its key is not in the file: the final newline is needed |
| `CaptureSink.AbsorbIs` | services/app/app/capture/sink.py:61-65 | the reading loop adds exactly the keys of its lines, or stops at the first line that raises |
| `CaptureSink.StepKeepsInv` | services/app/app/capture/sink.py:68-93 | a write by one sink keeps every other sink's index in agreement with the file |
| `CaptureSink.JsonlCaptureSink.RefreshSeen` | services/app/app/capture/sink.py:52-66 | seen keys and offset after a refresh |
| `CaptureSink.JsonlCaptureSink.Write` | services/app/app/capture/sink.py:68-93 | file, index, counter and answer after a write |
| `QueryCompiler.CompileFilters` | services/dataset_spike/dataset_spike/query_compiler.py:154-240 | for every filters and row, the compiled clauses with parameters bound left to right hold exactly if the row passes the field-by-field predicate; placeholders and parameters are equally many; a zone is mentioned exactly if a zone filter is set |
| `QueryCompiler.AirportMeans` | services/dataset_spike/dataset_spike/query_compiler.py:41-46 | the airport expression is true exactly when either zone is an airport or the rate code is 2 or 3, NULLs counting as no |
| `QueryCompiler.BucketCase` | services/dataset_spike/dataset_spike/query_compiler.py:28-38 | the branches appended edge by edge are those of the specified CASE |
| `QueryCompiler.BucketIsItsInterval` | services/dataset_spike/dataset_spike/query_compiler.py:28-38 | a bucket label names the one interval between consecutive edges that holds the value; NULL is 'unknown' |
| `QueryCompiler.SameBucketIff` | services/dataset_spike/dataset_spike/query_compiler.py:28-38 | two values share a bucket if and only if no edge separates them |
| `QueryCompiler.DimensionsArePlain` | services/dataset_spike/dataset_spike/query_compiler.py:48-79 | no dimension takes a parameter, and exactly the zone dimensions mention a zone; which value a dimension has is DimensionMeans |
| `QueryCompiler.DimensionMeans` | services/dataset_spike/dataset_spike/query_compiler.py:48-79 | every dimension expression evaluates, on every row, to the value read off the trip and its zones: date, hour, day, week part, pickup and dropoff names, codes, the bucket between the configured edges or unknown, airport or not |
| `QueryCompiler.BucketValue` | services/dataset_spike/dataset_spike/query_compiler.py:28-38 | the label at row level: unknown for NULL, else the one interval between consecutive edges that holds the value |
| `QueryCompiler.CompileAggregate` | services/dataset_spike/dataset_spike/query_compiler.py:263-295 | placeholders match parameters, LIMIT is bound to limit + 1, the WHERE means the filters, each selected dimension has the row-level value of the dimension asked for, and the zones are joined if and only if something mentions them |
| `QueryCompiler.AggregateReports` | services/dataset_spike/dataset_spike/query_compiler.py:263-295 | the answer of the compiled query is the report the spec asks for, without SQL: of the rows that pass the filters, one line for each combination of dimension values that occurs, with each measure over the trips that have them |
| `QueryCompiler.RankedIsSorted` | services/dataset_spike/dataset_spike/query_compiler.py:243-260 | of two rows of an answer the earlier has the earlier cell in the first column of the order in which they differ |
| `QueryCompiler.TieBreakersInOrder` | services/dataset_spike/dataset_spike/query_compiler.py:243-260 | after the requested key the order is every other output column, ascending, in output order |
| `QueryCompiler.OrderClause` | services/dataset_spike/dataset_spike/query_compiler.py:243-260 | the requested key first, and every output column takes part in the order |
| `QueryCompiler.AggregateIsDetermined` | services/dataset_spike/dataset_spike/query_compiler.py:243-295 | the tie-breakers leave one possible order of the groups, so the limited result is unique |
| `QueryCompiler.RankedIsDetermined` | services/dataset_spike/dataset_spike/query_compiler.py:243-325 | the same for any grouped query whose order mentions every dimension |
| `QueryCompiler.RankedAnswerExists` | services/dataset_spike/dataset_spike/query_compiler.py:263-325 | and there is such a result |
| `QueryCompiler.SourceIsWanted` | services/dataset_spike/dataset_spike/query_compiler.py:154-240 | a compiled SELECT reads exactly the rows its filters ask for |
| `QueryCompiler.CompileDimensionValues` | services/dataset_spike/dataset_spike/query_compiler.py:298-325 | parameters, scoping and WHERE of the dimension-values query: trips of the month whose dimension value, as lower-cased text, contains the search; the selected column has that dimension's row-level value |
| `QueryCompiler.DimensionValuesReport` | services/dataset_spike/dataset_spike/query_compiler.py:298-325 | the answer lists every value that occurs among the month's matching trips with the number of those trips |
| `QueryCompiler.DimensionValuesAreDetermined` | services/dataset_spike/dataset_spike/query_compiler.py:312-318 | trip count then value leaves one possible order |
| `Comparison.CompileSegments` | services/dataset_spike/dataset_spike/query_compiler.py:328-393 | baseline parameters, comparison parameters, then LIMIT; each CTE means its own filters and selects the row-level value of the dimension; the joins are there exactly if either side mentions a zone |
| `Comparison.SegmentsAreComplete` | services/dataset_spike/dataset_spike/query_compiler.py:328-393 | every segment of either side appears exactly once, with the measures over that side's own trips with this dimension value and nothing where that side has none, NULL segments included; only a side that gets a join it does not need has to have its kept trips match at most one zone at each end |
| `Comparison.SegmentsAreDetermined` | services/dataset_spike/dataset_spike/query_compiler.py:377-387 | the combined order leaves one possible result |
| `Comparison.SegmentsAreSorted` | services/dataset_spike/dataset_spike/query_compiler.py:377-387 | segments come in descending order of the first measure of the two sides added up, zero for a side that has none, and then in ascending order of their value |
| `Comparison.ComparedAnswerExists` | services/dataset_spike/dataset_spike/query_compiler.py:328-393 | and there is such a result |
| `Comparison.JoinHasEveryKey` | services/dataset_spike/dataset_spike/query_compiler.py:372-387 | the FULL OUTER JOIN on IS NOT DISTINCT FROM holds one pair per key of either side and nothing else |
| `Comparison.SideIsAlone` | services/dataset_spike/dataset_spike/query_compiler.py:136-151 | zone joins a side does not need change none of its groups and measures when each trip it keeps matches at most one zone at each end |
| `Comparison.ExtraJoinIsHarmlessIff` | services/dataset_spike/dataset_spike/query_compiler.py:136-151 | a join a side does not need leaves its trips, and their number, as they are if and only if every trip it keeps matches at most one zone at each end |
| `Comparison.CompileWhole` | services/dataset_spike/dataset_spike/query_compiler.py:396-444 | two sides, parameters in order, no LIMIT |
| `Comparison.WholeIsEachAlone` | services/dataset_spike/dataset_spike/query_compiler.py:396-444 | one row per side with its own population and measures, also for an empty side, under the same condition |
| `Sql.JoinIsNeutralIff` | services/dataset_spike/dataset_spike/query_compiler.py:144-151 | the two LEFT JOINs leave the trips as they are if and only if every trip matches at most one zone at each end |
| `Sql.UniqueMatchesOnce` | services/dataset_spike/dataset_spike/query_compiler.py:144-151 | a unique LocationID is enough for that |
| `Sql.OneArrangement` | services/dataset_spike/dataset_spike/query_compiler.py:243-260 | if the sort key tells all rows apart there is only one way to sort them |
| `Sql.AppendNarrows` | services/dataset_spike/dataset_spike/query_compiler.py:154-240 | appending a clause and its parameters narrows the condition by exactly that clause |
| `Envelope.RunGoverned` | services/dataset_spike/dataset_spike/analytics.py:231-247 | the rows shown are the longest fitting prefix of at most `limit` rows, row_count matches, truncated holds exactly when an answer row is missing, and the error is raised exactly when not even zero rows fit |
| `Envelope.Augment` | services/dataset_spike/dataset_spike/analytics.py:420-432 | the same after more fields are added, popping from the shared list |
| `Envelope.Shrink` | services/dataset_spike/dataset_spike/analytics.py:241-246 | the popping loop finds the longest fitting prefix or fails when there is none |
| `Envelope.NothingFittingIsDropped` | services/dataset_spike/dataset_spike/analytics.py:231-432 | across both cuts, no prefix that would pass the limit and fit both caps is longer than the one shown |
| `Fleet.AdmittedIsPlaced` | services/gateway/placement.py:79-167 | an admitted request that is not batch, with a known policy, the same snapshots, clock reading and staleness limit, gets a healthy worker observed within that limit and no stale fallback |
| `Fleet.BatchStaysBelowItsCap` | services/gateway/placement.py:135-140 | no unforced batch pick lands on a worker at its cap, for every policy and every draw |
| `Fleet.AdmittedBatchIsPlacedIff` | services/gateway/placement.py:128-140 | an admitted batch request is placed if and only if a worker that placement prefers is below the cap |
| `Fleet.AdmittedBatchCanBeRefused` | services/gateway/placement.py:134-140 | two workers on which a batch request is admitted and then refused with batch_slot_cap, under every policy and draw |
| `Fleet.ShouldShed` | services/gateway/admission.py:121-145 | accepting means exactly that a usable worker has KV room, a usable worker has a free slot for the class, and the deadline fits; codes and retry times |
| `Fleet.VerdictIsExact` | services/gateway/admission.py:121-145 | every verdict with code, reason and retry time: no live worker, none with KV room, none with a slot of the class, or, at the live worker with the fewest waiting, a first token estimated later than the deadline |
| `Fleet.SlotLimit` | services/gateway/admission.py:66-73 | other classes get every slot; batch gets the largest whole number that leaves the reserved fraction, clamped to [0, 1], free, but at least one |
| `Fleet.Pick` | services/gateway/placement.py:79-167 | an unforced pick decides exactly when there is a candidate and the policy is known, and then picks a candidate; who the candidates are is PickIsExact |
| `Fleet.PickIsExact` | services/gateway/placement.py:79-167 | every outcome: a forced pick takes the worker of that id or fails; otherwise no healthy worker, batch_slot_cap when nobody may be picked, unknown_policy, or a worker that is live (healthy while none is live), has KV room (unless none has) and is below the batch cap; stale exactly when none is live; prior worker, reusable tokens and intended action of the decision |
| `Fleet.RoundRobinReachesAll` | services/gateway/placement.py:142-143 | n successive turns reach each of n candidates |
| `Fleet.LeastLoadedIsLightest` | services/gateway/placement.py:144-147 | least_loaded takes a worker than which no candidate is less loaded: 2 * waiting + running + inflight + queued + pending, never-observed workers last |
| `Fleet.P2CBeatsAnother` | services/gateway/placement.py:183-184 | with two candidates or more, p2c takes one than which some other candidate is not less loaded, in the same sense |
| `Fleet.OwnerIsLeftIff` | services/gateway/placement.py:150-180 | a conversation leaves an available prefix owner exactly when another candidate exists and the owner's KV use reaches kv_used_max or its in-flight tokens 10000, or its waiting, queued and pending requests reach spill_queue and that candidate is less loaded; it goes to a least loaded one |
| `Fleet.OwnerReasons` | services/gateway/placement.py:150-180 | the reason given: affinity, or the first that holds of KV pressure, in-flight tokens and queue |
| `Fleet.OwnerIsPrior` | services/gateway/placement.py:88-167 | the owner is the prior worker of the decision; without one in reach the reason says so and two candidates are compared |
| `Fleet.PriorWorker` | services/gateway/placement.py:187-198 | the holder of the prefix with the latest observation and, of those, the greatest id; none exactly when nobody holds it |
| `Fallback.EveryReservationIsSettled` | services/app/app/llm.py:2037-2086 | for every candidate list and every answers of provider and budget, each reservation taken is settled exactly once, by commit only for the answer returned |
| `Fallback.AliasesInOrderUntilDecided` | services/app/app/llm.py:2037-2086 | the aliases called are the first ones in order, up to the first attempt that answers, is refused by the run budget, has no next alias, or fails with an error that is not retryable or is a bedrock_budget error |
| `Fallback.CallIsExact` | services/app/app/llm.py:2037-2086 | the whole call: an alias is left for the next exactly when its error is retryable and not a bedrock_budget one and there is a next; the outcome is that of the first attempt not left; the log is, attempt by attempt, its reservation, its call and its settlement, a commit of the usage or of the worst case where it is unknown, or a release |
| `Fallback.OutcomeIs` | services/app/app/llm.py:2037-2086 | the loop stops at the first attempt that is not left for the next alias, exhausted, answered or raised by the budget and the reply there |
| `Fallback.Governed` | services/app/app/llm.py:2037-2086 | the candidate loop equals its specification |
| `Fallback.AgentCallReservation.SettleOnce` | services/app/app/llm.py:1944-1948 | true for the first call only |
| `Fallback.AgentCallReservation.EndAgentCall` | services/app/app/llm.py:2135-2152 | commits only if nothing settled the reservation before |
| `Fallback.AgentCallReservation.ReleaseAgentCall` | services/app/app/llm.py:2154-2158 | releases only if nothing settled the reservation before |

## Left out

- HTTP, asyncio scheduling beyond the steps above, metrics, logging, configuration parsing: plumbing without state of its own.
- Guard verdicts, overflow `decide`, upstream error classification: one branch each; they appear as events that may happen or not.
- `capture/export.py` purge: it rewrites the file outside the sink's lock.
- CaptureSink.NoDuplicates: starts from a file that ends in a newline, because after a write cut short the claim is false (`CaptureSink.TornLineSwallows`); later writes are complete or do not happen.
- DuckDB itself, the SQL text and the numerics of the aggregates: the model starts from the syntax tree of each query.
- Request validation in `query_spec.py`: the queries take specs without repeated dimensions, as validation leaves them; comparison queries have at least one measure.
- `CompatibilitySpec` field validation (blank strings) and the digest format check in `PrefixIdentity`: one-branch facts.
- Envelopes whose `rows` entry is not a list: `_augment_envelope` then only raises or returns.
- Budget internals of `model_policy`: reserve, commit and release are abstract, and their own failures other than a refused reservation are not modelled.
- Experiment, evidence and analysis scripts, the UI and dashboards: presentation or one-off checks.
- Lookup evidence of `runtime.py` before a retrieval (identity checks and the "missing" event): settled by reading one branch.
- Queueing.BoundedDispatches: counts every arrival at the waiter's own clock reading, also one that finds the queue full, so the bound can be larger than what such a run shows.
- Tenants.WindowSafety: the budget bound is max(0, budget), because a negative budget admits nothing but an empty window still sums to 0.
- Workers.OccupiedIsSafe: needs a positive grace window, which is necessary (`Workers.OccupiedIsSafeIff`).
- Tenants.CountersExact: needs a positive window, which is necessary for `tokens` unless nothing is ever granted (`Tenants.TokensAreExactIff`).
- Hop.EveryRetrievalIsAccounted: counts a retrieval that is announced but not yet in the list, or swapped out but not yet reported, as on its way, because other threads can observe those moments; `Hop.AccountedBetweenCalls` has no such term.
- Hop.ConsumedIffConfirmedFirst: counts boundaries from the entry into the pending list, because counted from the announcement the claim is false (`Hop.BoundaryMissesAnnounced`); `Hop.ConsumedDespiteFailureIff` says when.
- Gateway.HandlerIsBounded: starts from queues that are used by the handler alone, as main.py does; a future cancelled by its timeout is a move of its own.
- Fallback.Governed: starts after the policy has been resolved, so the not-entitled error and the token caps are not part of it.

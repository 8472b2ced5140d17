# change-stream-test, modelled in Dafny

change-stream-test checks that a sharded MongoDB collection's change
stream always carries the `fullDocument` of an update when the updated
document still exists. It has two halves.

- **The data modifier.** `makeDataModification` writes to the collection
  in two variants, one in `main.go` and a richer one in `generate.go`.
  The mutation phases are `dataGenerate`/`DataGenerate`,
  `dataUpdate`/`DataUpdate` and `DataRemove`. Each phase:
  - reads and updates an in-memory registry `Markers` (id → int64 marker);
  - draws values from the global counters `g_marker` and `g_uid`;
  - buffers write models and sends them with `BulkWrite`, flushing at
    1000 entries and once more for a non-empty remainder;
  - stops at the first write error.
- **The consumer loop.** It reads the change stream until the end-marker
  document arrives. For every `update` event without an embedded
  `fullDocument`, it looks the document up again. It counts an error when
  the record holds the event marker's field with the marker's value. The
  event marker is the first updated field whose key starts with `"u"`,
  found by `extractEventMarker`.

The model has nine modules:

- `Bson`: documents as ordered element lists; `Lookup`; the first-prefixed
  search.
- `Bulk`: the flush rule as a function `Batches`, with its lemmas.
- `Store`: the write models, and a `Collection` class. Its `BulkWrite`
  appends each request to a log and fails as a failure oracle says. This
  module also holds the request-log predicates every phase maintains.
- `Registry`:
  - the `Markers` and `Counters` classes;
  - the `"u<uid>"` tag names;
  - the specification functions of the three loops (`GenerateUpTo`,
    `RemoveUpTo`, `UpdateOps`) and their lemmas.
- `Phases`: the three loops as imperative methods, each proved against
  its specification function.
- `Workload`: the id generators of both variants, as the values they give
  per iteration.
- `MainHarness`: `makeDataModification` of `main.go`.
- `GenerateHarness`: `makeDataModification` of `generate.go`,
  `shardCollection`'s verdict, and the fixed-scenario counts.
- `ChangeFeed`:
  - `extractEventMarker`;
  - the per-event decision of the consumer loop, as a `Verdict`;
  - the loop itself, as the method `DrainPass`.

Both variants declare the same Go names. The generate and remove loops
are textually the same in the two files, so one `Phases` method models
each. `main.go`'s `dataUpdate` is `Phases.DataUpdate` with every iteration
using the first update document.

A note on the counting rule. The comparison at `main.go:109` counts an
event when the record's marker field is present and EQUALS the event's
marker. A missing field, a missing record or a different value counts
nothing. The model follows that code.

## Model

| member | source | states |
|---|---|---|
| Bson.LookupFirst | main.go:95-97 | `Lookup` finds nothing exactly when no element has the key; otherwise it returns the value of the first element with that key |
| Bson.FirstPrefixedFirst | main.go:138-143 | the search finds nothing exactly when no key has the prefix; otherwise it returns the first element whose key has it |
| ChangeFeed.ExtractEventMarkerFirst | main.go:129-144 | no marker when `updatedFields` is absent or not a document; otherwise the first updated field with prefix `"u"`, and none exactly when no key has it |
| ChangeFeed.MarkerOfUpdate | generate.go:96-126 | for an event reporting the `$set` fields of any of the three update documents, the extracted marker is that update's tag with its int64 marker (`k` and `d` never match) |
| ChangeFeed.FlagExactly | main.go:93-113 | an event is counted if and only if all of these hold: its `documentKey` is a document whose `_id` is not the end marker; its `operationType` is `"update"`; its `fullDocument` is not a document; `Find` gave a record; the event has a marker; and the record's field of that name holds the same int64 |
| ChangeFeed.FlagIsCounted | main.go:93-113 | the "only if" direction of `FlagExactly` |
| ChangeFeed.CountedIsFlag | main.go:93-113 | the "if" direction of `FlagExactly` |
| ChangeFeed.RecordFlag | main.go:108-109 | a record field holding the marker's int64 value is counted |
| ChangeFeed.FoundFlag | main.go:104-111 | a found record that matches the marker makes the event counted |
| ChangeFeed.NothingToCompare | main.go:104-112 | a failed `Find`, an empty cursor, a record without the marker's field, or an event without a marker counts nothing, whatever the record holds (an event without a marker is at most a panic) |
| ChangeFeed.VerdictsAt | main.go:93-94 | the `j`th verdict is the decision on the `j`th event |
| ChangeFeed.VerdictsAppend | main.go:93-94 | the verdicts on two streams read in sequence are the two verdict sequences in sequence |
| ChangeFeed.VerdictsPrefix | main.go:93-94 | the verdicts on a prefix of the stream are the prefix of its verdicts |
| ChangeFeed.StopAt | main.go:98-100 | the stop index is at most the stream's length; every earlier event lets the loop go on; the event at the index ends it (end marker or panic) |
| ChangeFeed.StopAtFirst | main.go:98-100 | the first index whose verdict ends the pass is `StopAt` |
| ChangeFeed.Examine | main.go:94-116 | the loop body's decision on event `i` is its verdict |
| ChangeFeed.DrainPass | main.go:92-118 | `passErrors` is the number of counted events before the first event that ends the pass. The pass ends at the end marker, at a panic, or with the stream exhausted. `totalErrors` grows by exactly `passErrors`. That total stands for nothing when the pass ends in a panic, which ends the process before `main.go:118` |
| ChangeFeed.LaterEventsIgnored | main.go:98-100 | events after the one that ends the pass change neither where it stops, nor how it ends, nor what it counts |
| ChangeFeed.FlagsCountFlagged | main.go:109-112 | each event adds at most one error, and the count is zero exactly when no event is flagged |
| ChangeFeed.FlagsAppend | main.go:109-112 | one more event adds one error exactly when it is flagged, and nothing otherwise |
| Bulk.BatchesShape | main.go:186-197 | the flush rule drops, duplicates and reorders nothing; every batch is non-empty and at most 1000 long, and all but the last are full; there are ⌈n/1000⌉ batches |
| Bulk.BatchesUnique | main.go:186-197 | any cut of the ops with that shape is the flush rule's |
| Bulk.BatchesAfterFull | main.go:186-191 | full batches flushed first come out unchanged in front of the batches of the rest |
| Bulk.FullBatchesArePrefix | main.go:186-190 | the full batches a phase flushed before stopping are a prefix of its planned batches |
| Bulk.FinalFlush | main.go:193-197 | flushed full batches plus one short non-empty remainder are exactly the flush rule |
| Bulk.FlattenCons | main.go:186-197 | concatenating batches splits off the first batch |
| Bulk.FlattenAppend | main.go:186-197 | the operations of two runs of batches in a row are those of the first followed by those of the second |
| Store.Collection.BulkWrite | main.go:187-189 | an empty request is refused without being recorded; any other is appended to the log and fails exactly when its position is a failing one |
| Store.WroteInSequence | generate.go:26-42 | a phase run after a successful phase writes the first phase's batches followed by its own, up to the first failure |
| Store.WroteBeforeFailure | generate.go:26-42 | a run that stopped on a failure wrote a failing prefix of everything planned after it too |
| Store.WrittenInSequence | generate.go:26-42 | the operations written by two phases in a row are the first phase's followed by the second's |
| Store.FlushFailed | main.go:186-189 | a refused full flush ends the phase with a failing prefix of its planned batches |
| Store.FinalWrite | main.go:193-197 | after the last flush the log holds exactly the planned batches; the error is the last write's |
| Store.BufferPush | main.go:181-184 | buffering one write model keeps flushed batches plus buffer equal to the planned ops |
| Store.BufferFlush | main.go:186-191 | an accepted full flush moves the buffer into the log and empties it |
| Store.BufferFlushFailed | main.go:186-189 | a refused full flush leaves a failing prefix that holds exactly the ops planned so far |
| Store.BufferFinal | main.go:193-198 | flushing the remainder, if any, ends the phase with its planned batches or a failing prefix of them |
| Registry.Markers.constructor | main.go:147 | a new registry is empty |
| Registry.Counters.constructor | main.go:21-22 | `g_uid` and `g_marker` are package variables, zero when the process starts |
| Store.Collection.constructor | main.go:60-64 | the collection is dropped and re-created before a pass: no request has been sent to it yet, and the failure oracle is fixed |
| Registry.TagInjective | main.go:204-205 | distinct uids give distinct `"u%d"` names, and every name has the prefix `"u"` |
| Registry.DigitsInjective | main.go:205 | `%d` of a non-negative integer is injective |
| Registry.UpdateShapes | generate.go:97-126 | every update document sets the tag to the marker; the first also sets `k` and `d`, the second sets `k` and unsets `d`, the third unsets `k` and `d`; no field is both set and unset |
| Registry.GenerateOpsAllocations | main.go:177-184 | one upsert-replace of `{_id: id, u: marker}` per allocation, in allocation order |
| Registry.GenerateTracks | main.go:166-175 | after generating, every generated id is tracked and no other id was added |
| Registry.GenerateKeepsExisting | main.go:168-171 | markers already present are never overwritten |
| Registry.GenerateCounts | main.go:172-175 | `g_marker` and the registry grow by exactly the number of new ids |
| Registry.GenerateAllocates | generate.go:55-58 | the `k`th allocation gives its new id marker `g_marker + k + 1` and records it, so new markers rise strictly |
| Registry.GenerateNewIds | generate.go:55-58 | every new id has a marker above the old counter, belonging to exactly one allocation |
| Registry.GenerateConsistent | generate.go:49-58 | generating keeps the registry invariant: all markers positive, not above `g_marker`, and pairwise distinct |
| Registry.GeneratePrefix | main.go:165-192 | later iterations only append allocations and write models |
| Registry.GenerateFresh | main.go:165-184 | over pairwise distinct untracked ids, iteration `i` gives marker `g_marker + i + 1` and plans the `i`th write |
| Registry.FreshStep | main.go:172-184 | one more fresh id extends the per-iteration allocation facts |
| Registry.RemoveDrops | generate.go:150-151 | after removing, exactly the removed ids are gone and every other entry is unchanged |
| Registry.RemoveDeletes | generate.go:150-153 | one delete per iteration, in order, whether or not the id was tracked |
| Registry.RemoveConsistent | generate.go:151 | removing keeps the registry invariant |
| Registry.RemovePrefix | main.go:243-247 | later iterations only append deletes |
| Registry.UpdatePlanFacts | generate.go:90-94 | the planned iterations are exactly the tracked ones, in strictly increasing order |
| Registry.PlanExtend | generate.go:90-94 | a tracked iteration extends the plan |
| Registry.UpdateOpsFollowPlan | generate.go:86-130 | the `k`th planned update belongs to the `k`th planned iteration, with tag number `g_uid + i + 1` and the id's current marker |
| Registry.UpdatePrefix | generate.go:86-131 | later iterations only append updates |
| Registry.UpdateAllTracked | main.go:203-224 | when every id is tracked, iteration `i` plans the `i`th update, with tag number `g_uid + i + 1` |
| Registry.TrackedStep | main.go:207-224 | one more tracked iteration extends those facts |
| Registry.UpdateTagsDistinct | generate.go:87-94 | no two planned updates share a tag name, since skipped iterations consume a uid too |
| Registry.RisingTags | generate.go:87-88 | strictly rising iteration numbers give pairwise distinct tag names |
| Registry.FollowStep | generate.go:90-130 | one more tracked iteration extends the plan-following facts |
| Registry.UpdateTagRange | generate.go:86-88 | every iteration takes the next `g_uid`, so the tag numbers of the first `n` iterations lie in `(uid, uid + n]` |
| Registry.PlansTagsApart | generate.go:86-88 | two update loops, the second starting at or above the tag counter the first ended with, plan no tag name in common |
| Registry.WithinApart | generate.go:87-88 | tag numbers in ranges that do not overlap give different tag names |
| Phases.GenerateSkip | main.go:168-171 | a tracked id changes nothing |
| Phases.GenerateNew | main.go:172-184 | a new id is recorded with the next marker and its replace is buffered; the buffer is at most full |
| Phases.GenerateFlushed | main.go:186-191 | an accepted full flush keeps the loop invariant |
| Phases.GenerateStopped | main.go:186-189 | a refused full flush ends the phase with a failing prefix of its planned batches |
| Phases.GenerateFinished | main.go:193-198 | the final flush ends the phase with its registry, counter and batches |
| Phases.DataGenerate | main.go:163-199 | the loop (also `generate.go:46-82`) leaves the registry and `g_marker` as `GenerateUpTo` says after the iterations that ran (all of them unless a write failed). The log holds the flush-rule batches of its replaces up to the first failure, and nothing after it |
| Phases.RemoveNext | main.go:244-247 | an iteration drops its id and buffers a delete |
| Phases.RemoveFlushed | main.go:249-254 | an accepted full flush keeps the loop invariant |
| Phases.RemoveStopped | main.go:249-252 | a refused full flush ends the phase with a failing prefix |
| Phases.RemoveFinished | main.go:256-261 | the final flush ends the phase with its registry and batches |
| Phases.DataRemove | main.go:241-262 | the loop (also `generate.go:147-168`) leaves the registry as `RemoveUpTo` says, and the log holds the batches of its deletes up to the first failure |
| Phases.UpdateSkip | main.go:204-211 | an untracked id still consumes a uid and buffers nothing |
| Phases.UpdateNext | main.go:204-224 | a tracked id buffers its update, with the next uid's tag and the id's marker |
| Phases.UpdateFlushed | main.go:226-231 | an accepted full flush keeps the loop invariant |
| Phases.UpdateStopped | main.go:226-229 | a refused full flush ends the phase with a failing prefix |
| Phases.UpdateFinished | main.go:233-238 | the final flush ends the phase; `g_uid` has grown once per iteration |
| Phases.DataUpdate | generate.go:84-145 | the loop (also `main.go:201-239`) advances `g_uid` once per iteration that ran, skipped ones included, and never changes the registry. The log holds the batches of `UpdateOps` up to the first failure. A failed full batch ends the phase right after the tracked iteration that filled it, a failed last batch after all iterations, so the log fixes the `g_uid` left behind |
| Phases.UpdatesNeverReuseTags | generate.go:86-88 | `g_uid` is shared by every update phase. A phase that starts at or above the tag counter an earlier phase left plans no tag name the earlier one planned, whether or not either phase failed |
| Phases.GeneratedFresh | main.go:172-175 | over new, pairwise distinct ids, generate advances `g_marker` by exactly the iterations that ran, failed or not |
| Phases.UpdatedDeterminesUid | generate.go:132-143 | two outcomes of an update phase with the same request log and error ran the same number of iterations and leave the same `g_uid` |
| Phases.LaterTrackedAddsOp | generate.go:90-94 | running on up to a later tracked iteration plans strictly more updates |
| Workload.Identity | main.go:149-151 | the generator `i → i` gives the ids `0 … n-1` |
| Workload.Sevens | generate.go:32-34 | the generator `i → i * 7` |
| Workload.UpdateInputs | generate.go:38-40 | iteration `i` updates id `(i % 21) * 10` with `k = i * 13`, its shape and its clock reading |
| Workload.Shapes | generate.go:97 | each iteration's shape is the one `rand.Int() % 3` picks |
| Workload.FirstShapeOnly | main.go:213-219 | `main.go` always uses the first update document |
| Workload.IdentityFresh | main.go:149-151 | the ids `0 … n-1` start untracked in a new registry and are pairwise distinct |
| Workload.IdentityRegistry | main.go:149-151 | generating `0 … n-1` into a new registry tracks exactly those ids, `id` with marker `g_marker + id + 1` |
| MainHarness.MakeDataModification | main.go:146-161 | the run writes generate's batches and then update's, in order, up to the first failed request. On every path, the generate iterations that ran (at most 2000) and then the update iterations that ran (at most 100, and only after all 2000) are the ones whose operations the written requests hold, exactly, and `g_marker` and `g_uid` grew by their numbers. With no failure, they grew by 2000 and 100 |
| MainHarness.GeneratePlanShape | main.go:149-151 | generate plans two full batches; document `k` gets marker `g_marker + k + 1` |
| MainHarness.UpdatesTracked | main.go:155-157 | every id the update loop visits (at most 200) is tracked with its generated marker |
| MainHarness.PlannedUpdate | main.go:155-157 | iteration `i` plans its `SetAll` update with tag number `g_uid + i + 1` |
| MainHarness.UpdatePlanShape | main.go:155-157 | update plans one request of 100 updates, in iteration order |
| MainHarness.PlanShape | main.go:146-161 | the run plans three requests: 1000 and 1000 replaces, then 100 updates |
| GenerateHarness.MakeDataModification | generate.go:19-44 | a failed `shardCollection` returns before anything is written or counted. Otherwise the run writes generate's, remove's and update's batches, in order, up to the first failed request. On every path, the iterations that ran of each phase (each phase only after all of the one before) are the ones whose operations the written requests hold, exactly; `g_marker` grew by the generate iterations and `g_uid` by the update iterations. With no failure, they grew by 2000 and 100 |
| GenerateHarness.GenerateThenRemove | generate.go:26-36 | generate then (when it succeeded) remove write their batches in sequence. On every path, the written requests hold exactly the operations of the generate and remove iterations that ran, `g_marker` grew by the generate iterations, and the registry is what those iterations made it. With no failure, that is the registry of `AfterRemove` |
| GenerateHarness.GeneratePhase | generate.go:26-30 | generate over a new registry writes its batches and leaves the registry of the iterations that ran, with `g_marker` grown by their number and exactly their operations written; on success the registry and counter are `AfterGenerate`'s |
| GenerateHarness.RemovePhase | generate.go:32-36 | remove writes its batches and leaves the registry of the iterations that ran, with exactly their operations written; on success the registry is `AfterRemove`'s |
| GenerateHarness.UpdatePhase | generate.go:38-42 | update writes its batches, `g_uid` grew by the iterations that ran (all of them on success), and exactly their operations were written |
| GenerateHarness.UpdateIdSevens | generate.go:38-40 | the id `(i % 21) * 10` is a multiple of 7 exactly when `i` is |
| GenerateHarness.ResidueSevens | generate.go:38-40 | the same for residues below 21 |
| GenerateHarness.RegistryAfterRemove | generate.go:26-36 | after remove, the registry tracks `0 … 1999` except the multiples of 7 below 700, each with its generated marker |
| GenerateHarness.MarkerAfterRemove | generate.go:26-36 | a tracked id still has marker `g_marker + id + 1` |
| GenerateHarness.UpdateTracked | generate.go:90-94 | an update iteration finds its id tracked exactly when its number is not a multiple of 7 |
| GenerateHarness.PlanCount | generate.go:90-94 | with every seventh iteration untracked, `n` iterations plan `n - ⌈n/7⌉` updates |
| GenerateHarness.RemovePlanShape | generate.go:32-36 | remove plans one request of 100 deletes, of `0, 7, …, 693` |
| GenerateHarness.UpdatePlanCount | generate.go:38-40 | update plans exactly the 85 iterations whose number is not a multiple of 7 |
| GenerateHarness.PlannedUpdate | generate.go:38-40 | the `k`th planned update is iteration `p[k]`'s, with its rolled shape, tag number `g_uid + p[k] + 1` and generated marker |
| GenerateHarness.UpdatePlanShape | generate.go:38-40 | update plans one request of 85 updates, in plan order |
| GenerateHarness.PlanShape | generate.go:19-44 | the run plans four requests: 1000 and 1000 replaces, 100 deletes, 85 updates |

## Left out

- MongoDB itself is not modelled: connecting, `Drop`, `Watch`, `Find`, `InsertOne`, `Disconnect` and what the store does with a bulk request. A request is a log entry that an oracle (`Collection.failing`) accepts or refuses. `Find` plus `cur.Next` is a value recorded with each event (`FindResult`).
- `enableSharding` is not modelled: it is a single admin call. Nor are connection-string parsing and the default database name, which are library calls.
- The goroutine and `defer` that insert the end-marker document (`main.go:79-90`) are left out; they are concurrency. The end marker is an event of the stream like any other. The stream is a finite sequence, so a stream that closes before the marker ends the pass as `Exhausted`.
- The outer pass loop of `checkOplogLoop` (`main.go:57-125`) is left out: `DrainPass` models one pass. Its `totalErrors` input is the total carried in from earlier passes.
- `logrus` logging is left out, and a `Fatalf` is not modelled. A Go panic in the consumer loop is the verdict `Fault`, which ends the pass as `Panicked`. It comes from `Document()`, `StringValue()` or `Int64()` applied to a value of the wrong type.
- The two-key `Lookup("updateDescription", "updatedFields")` (`main.go:130`) is modelled as two nested single-key lookups. Array values and malformed BSON (`Elements()` returning an error) are not represented.
- `time.Now().String()` is an input string per iteration (`UpdateInput.date`). `rand.Int()` is an input natural per iteration (`rolls`).
- The injected id generators are the sequences of values they return (`Workload`); the generators are pure.
- `atomic.AddInt64` / `AddInt32` are plain field updates; there is a single writer.
- Phases.DataUpdate: `g_uid` is an unbounded integer here. The source's `int32` wraps to −2^31 after 2^31 − 1 increments, which still gives new tag names (`u-2147483648`, …); names repeat only after 2^32 increments, which the unbounded counter never does.
- Phases.DataGenerate: `g_marker` is an unbounded integer here, not an `int64`.
- MainHarness.MakeDataModification: takes exactly 100 clock readings, one per update iteration. The source reads the clock as it goes.
- GenerateHarness.MakeDataModification: takes exactly 100 rolls and 100 clock readings, one per update iteration.

# Engagement Hub: a verified model of its protocol and codec cores

Engagement Hub orchestrates voice engagements. Most of the service is plumbing; this project models
the parts whose correctness is not visible from any one function, and proves what they are for.

| file | component |
|---|---|
| `Fanout.dfy` | the subscriber registry of the LISTEN/NOTIFY manager and its bounded broadcast channels |
| `EventStore.dfy` | concurrent event writers: advisory lock, `MAX(sequence) + 1`, commit or rollback |
| `Recovery.dfy` | writers, notifications, disconnects, subscribers and gap-fills as one system |
| `Manager.dfy` | the manager's run loop |
| `SpanProcessor.dfy` | the bounded-queue batching span processor |
| `FileExporter.dfy` | the day-file exporter with its size cap, and its drop counter shared with the processor |
| `CanonicalJson.dfy` | canonical JSON of a StartEngagement request, with an independent reader |
| `Idempotency.dfy` | the AIP-155 select / insert / re-select protocol among concurrent callers |
| `Retry.dfy` | the retry combinator: backoff, jitter, deadline gate, panics |
| `AtMostOnce.dfy` | adapter calls with one request id each over a lossy network |
| `Audit.dfy` | the two-phase audit writer |
| `Base64.dfy` | the hand-written base64 encoder, with an RFC 4648 decoder |
| `RequestId.dfy` | the name from which UUIDv5 request ids are derived |

Protocols are state machines: `Apply` performs one step, a step that is not enabled changes nothing,
and `Run` performs any sequence of steps, so each theorem about `Run` speaks of every interleaving.
Code that updates fields or loops is a class or a method proved against the same functions. The manager's
endless loop is cut off after a number of rounds, and its contract holds for every number.

Three results differ from what the source's prose suggests.

* **The highest sequence seen is not a safe resume cursor.** `HighestSeenCursorCanSkip` builds runs in
  which event 1 is committed and its notification lost, event 2 is notified afterwards, and a gap-fill
  from 2 sends nothing. `RecoveryExact` proves exactly when one gap-fill call leaves a client
  with every committed event: if and only if it had every event up to its cursor (held from before, read,
  or waiting unread in its channel; overwritten entries do not count) and has each entry that the call
  itself overwrites from elsewhere. A client can check the first on what it has read and
  finds in its channel. The second is empty when its unread entries and the events it misses fit the 256
  places of its channel.
  `RecoveryLosesNothing` gives the positive half for fills interleaved with anything.
* **An overrun client cannot always recover in one call.** A client that resubscribes and fills from its
  cursor is left with the latest 256 of the events it missed (`ResubscribeExact`), because the call fans
  all rows out before the client can read any; `FillCanOverrun` builds such a run.
* **Equal requests need not all succeed.** They all get the same answer, but if a third, different
  request created the row they all get a conflict (`EqualRequestsAgree`, `EqualRequestsCanConflict`).

Where code and prose disagree the model follows the code: a full subscriber channel overwrites its
oldest entry and the subscriber stays registered (`notify.rs:24-26` says it is dropped); the run loop
never gap-fills by itself (`notify.rs:12-13` says it does); a full span queue refuses the newest span,
not the oldest; the drain after shutdown empties the whole queue, not one batch; `retries_total` is
bumped before the deadline gate. Step 3 of the AIP-155 flow is documented but not yet written in the
service; the documented step is modelled.

Assumed of the environment: Postgres makes a committed row visible before it releases the
transaction's advisory lock and delivers notifications of one connection in commit order; `try_send`
is atomic; a broadcast channel keeps the latest 256 unread entries; UUIDs drawn at random are fresh;
exporters do not panic. SHA-256 is a parameter; where a theorem needs it, the requests of one key are
assumed not to collide under it.

## Model

| member | source | states |
|---|---|---|
| `Fanout.LiveTranscript` | crates/engagement-hub/src/notify.rs:98-142 | over any run, an open subscription has been sent exactly the payloads of its engagement, or of its batch, fanned out since it subscribed: in order, each once, nothing else |
| `Fanout.FanoutReaches` | crates/engagement-hub/src/notify.rs:119-142 | a fan-out sends the payload once to each open channel of its engagement and of its batch and changes no other channel |
| `Fanout.FanoutSweeps` | crates/engagement-hub/src/notify.rs:125-141 | after a fan-out the sender lists it used hold exactly the live senders, their keys exist exactly if there is one, and no other key changed |
| `Fanout.ReceivesInOrder` | crates/engagement-hub/src/notify.rs:98-117 | a subscriber that reads n times gets its n oldest unread entries, in order |
| `Fanout.DroppedTranscript` | crates/engagement-hub/src/notify.rs:119-142 | a subscription whose receiver is gone is never sent anything again |
| `Fanout.NothingLostWithinCapacity` | crates/engagement-hub/src/notify.rs:67-70 | a subscriber that was sent at most 256 payloads has had none overwritten |
| `Fanout.ApplyValid` | crates/engagement-hub/src/notify.rs:90-142 | every operation keeps the registry valid: each open channel in the one sender list of its topic, once; no empty lists |
| `Fanout.RunValid` | crates/engagement-hub/src/notify.rs:98-142 | so does every run |
| `Fanout.SubscriberRegistry.SubscribeEngagement` | crates/engagement-hub/src/notify.rs:99-109 | adds one open channel under the engagement and keeps every other |
| `Fanout.SubscriberRegistry.SubscribeBatch` | crates/engagement-hub/src/notify.rs:111-117 | the same for a batch |
| `Fanout.SubscriberRegistry.Retain` | crates/engagement-hub/src/notify.rs:127 | the retain loop sends to exactly the live senders of its list, once each, and keeps exactly those, in order |
| `Fanout.SubscriberRegistry.Fanout` | crates/engagement-hub/src/notify.rs:119-142 | the two map updates amount to: every open channel of the engagement and of the batch gets the payload once, no other channel changes, dead senders of these two keys and keys without senders are gone, other keys stay |
| `EventStore.CommittedSequencesAreGapless` | crates/engagement-hub/tests/advisory_lock.rs:35-67 | in every reachable state, with rollbacks and colliding lock hashes, each engagement's committed sequences are exactly 1..n, event_pk ascends with them, and no insert can clash with the unique constraint |
| `EventStore.VisibleInOrder` | crates/engagement-hub/tests/advisory_lock.rs:49-65 | sequences become visible in order: from any reachable state and over any further run, an event that appears later has a larger sequence and a larger event_pk than every event of its engagement seen before |
| `EventStore.WriterEffect` | crates/engagement-hub/tests/advisory_lock.rs:35-67 | from every reachable state with the lock free, a committing writer adds exactly the next row of its engagement, and one that rolls back leaves everything but the event_pk counter as it was |
| `Recovery.GapRowsAreTheTail` | crates/engagement-hub/src/notify.rs:189-210 | on gapless tables the ordered gap query returns exactly the events after the cursor |
| `Recovery.OnlyCommittedRowsAreDelivered` | crates/engagement-hub/src/notify.rs:183-226 | over every run of the whole system a subscriber is sent committed rows of its own topic only |
| `Recovery.RecoveryLosesNothing` | crates/engagement-hub/src/notify.rs:305-318 | after any run, a gap-fill and any further run by which the fill has finished, a client still open has every event (by then visible, with a sequence committed when the fill read the table) that was beyond its cursor or that it had before, unless that very event was overwritten in its channel since; earlier overruns do not matter |
| `Recovery.RecoveryExact` | crates/engagement-hub/src/notify.rs:181-226 | one gap-fill call, at any cursor in any reachable state, leaves the client with every committed event if and only if it had every event up to the cursor and has every entry that the call overwrites from elsewhere; which entries these are |
| `Recovery.ResubscribeExact` | crates/engagement-hub/src/notify.rs:67-70 | a client back on a fresh channel has after the call exactly the latest 256 of the events beyond its cursor |
| `Recovery.FillCanOverrun` | crates/engagement-hub/src/notify.rs:183-226 | a run after which a gap-fill from 0 overwrites event 1 before the client can read it |
| `Recovery.HighestSeenCursorCanSkip` | crates/engagement-hub/src/notify.rs:305-318 | for each way a notification can be lost (no connection, lost on the way, connection fails) a run after which a gap-fill from the highest seen sequence leaves an event unsent |
| `Recovery.BurstOnChannel` | crates/engagement-hub/src/notify.rs:212-223 | after a burst of fan-outs an unread channel holds the latest 256 of its unread entries and the matching payloads, and exactly the others are overwritten |
| `Recovery.GapFillEngagement` | crates/engagement-hub/src/notify.rs:183-226 | the loop fans out the query's rows in order; a failed query sends nothing and is reported |
| `Recovery.EmitsAreTheCall` | crates/engagement-hub/src/notify.rs:212-225 | the steps of a fill left to itself are the call's loop: they send the rows it read, in order, and finish it |
| `Manager.ListenNotifyManager.HandleNotification` | crates/engagement-hub/src/notify.rs:429-452 | empty or unparseable payloads change nothing; others are fanned out once |
| `Manager.ListenNotifyManager.Listen` | crates/engagement-hub/src/notify.rs:369-413 | the inner loop takes wakes up to and including the first that shows a shutdown or a lost connection, none less and none more, and the registry is what they make of it |
| `Manager.ListenNotifyManager.Connection` | crates/engagement-hub/src/notify.rs:323-426 | one pass of the outer loop: where it is left, and how many attempts, wakes and reconnects it made |
| `Manager.ListenNotifyManager.Run` | crates/engagement-hub/src/notify.rs:322-427 | the nested loops with their breaks and returns are, after any number of rounds, where the flat round-by-round account is (connect attempts, wakes, reconnects, reason of a stop); subscribers got exactly the parseable notifications of the wakes taken, in arrival order, once; the connected signal fires at most once |
| `Manager.LoopProgress` | crates/engagement-hub/src/notify.rs:322-427 | after any number of rounds in any world: connect attempts equal reconnects (plus one while connected), reconnects equal failed connects plus lost connections, the loop stopped only because of the shutdown it names and passed none over, and until then every round was a connect attempt or a wake |
| `Manager.WakesAreFannedOut` | crates/engagement-hub/src/notify.rs:377-411 | what the wakes make of the registry is the fan-out of exactly the parseable non-empty notifications from the health check and the blocking receive, in arrival order, each once |
| `SpanProcessor.Conservation` | crates/engagement-hub/src/telemetry/processor.rs:82-215 | over every run each offered span is delivered, counted dropped, in flight, batched or queued; the counter is exact; accepted spans keep their order; every export carries 1 to 512 spans |
| `SpanProcessor.RefusedExactly` | crates/engagement-hub/src/telemetry/processor.rs:82-86 | over every run a span is refused if and only if it finds the queue holding its capacity, or closed, which takes a shutdown signal |
| `SpanProcessor.ExportsWhenDue` | crates/engagement-hub/src/telemetry/processor.rs:137-209 | an export starts only on a tick, with 512 spans, or with what the drain has left, and takes the whole batch |
| `SpanProcessor.AfterShutdown` | crates/engagement-hub/src/telemetry/processor.rs:174-212 | once the task returned, queue and batch stay empty and offered = delivered + dropped for ever |
| `SpanProcessor.DrainCalls` | crates/engagement-hub/src/telemetry/processor.rs:176-209 | the drain makes exactly ceil((batch + queue) / 512) exports whatever is offered meanwhile, at most 5 at the default capacity |
| `SpanProcessor.ShutdownFinishes` | crates/engagement-hub/src/telemetry/processor.rs:174-212 | from every state of the task, the signal, the drain and the end of its exports lead to its end |
| `SpanProcessor.BatchesCarryAll` | crates/engagement-hub/src/telemetry/processor.rs:177-209 | the drain's calls together carry the remaining spans, in order, none twice |
| `SpanProcessor.CountingSpanProcessor.OnEnd` | crates/engagement-hub/src/telemetry/processor.rs:82-86 | a full or closed queue rejects the new span and counts it; otherwise it is queued last |
| `SpanProcessor.CountingSpanProcessor.OnTick` | crates/engagement-hub/src/telemetry/processor.rs:139-155 | a tick exports a non-empty batch and counts it unless it was delivered |
| `SpanProcessor.CountingSpanProcessor.OnReceive` | crates/engagement-hub/src/telemetry/processor.rs:156-173 | a received span joins the batch, which is exported when it reaches 512 |
| `SpanProcessor.CountingSpanProcessor.Shutdown` | crates/engagement-hub/src/telemetry/processor.rs:174-212 | the drain loop terminates with everything left exported in order in batches of 512 and the counter exact |
| `FileExporter.SharedCounterIsExact` | crates/engagement-hub/src/telemetry/local_exporter.rs:145-178 | processor and exporter sharing one counter never count a span twice nor miss one: offered = written + counter + in flight |
| `FileExporter.ExportCompletes` | crates/engagement-hub/src/telemetry/local_exporter.rs:145-178 | an export ends with what the exporter reported and leaves what it wrote |
| `FileExporter.FilesStayWithinCap` | crates/engagement-hub/src/telemetry/local_exporter.rs:124-178 | over every run from any files, with rotation and torn writes: a day file that started below the cap ends at most at cap − 1 plus one line, one at or above the cap does not grow, except one line per failed metadata read |
| `FileExporter.FilesGrowOnTheirDay` | crates/engagement-hub/src/telemetry/local_exporter.rs:124-143 | over every run a day file grows only by exports of that day |
| `FileExporter.JsonlFileExporter.EnsureFile` | crates/engagement-hub/src/telemetry/local_exporter.rs:124-143 | leaves today's file open exactly if it can be opened or already was, and no file otherwise; no file changes size |
| `FileExporter.JsonlFileExporter.WriteBatch` | crates/engagement-hub/src/telemetry/local_exporter.rs:145-178 | exactly when it succeeds, counts against the cap and writes: a capped batch is counted and reported as success, an I/O error is reported and not counted, otherwise the line goes to today's file and nowhere else |
| `CanonicalJson.CanonicalExact` | crates/engagement-hub/src/idempotency.rs:150-186 | a text reads back as these eleven fields if and only if it is the canonical text: one spelling per character (section 3.2.2.2 of RFC 8785), known keys, ascending order, no whitespace |
| `CanonicalJson.ParseExact` | crates/engagement-hub/src/idempotency.rs:184-185 | the reader accepts no text but the printed form of what it reads |
| `CanonicalJson.CanonicalRoundTrip` | crates/engagement-hub/src/idempotency.rs:150-186 | an independent reader recovers all eleven fields, and which optional ones are present, from the canonical text, for all strings |
| `CanonicalJson.CanonicalInjective` | crates/engagement-hub/src/idempotency.rs:139-186 | requests with the same canonical text agree in every field |
| `CanonicalJson.CanonicalKeysAscend` | crates/engagement-hub/src/idempotency.rs:184-185 | keys are printed strictly ascending (section 3.2.3 of RFC 8785) |
| `CanonicalJson.InsertOrderIrrelevant` | crates/engagement-hub/src/idempotency.rs:151-182 | whatever the order of the inserts, the map printed is the same |
| `CanonicalJson.PrintRoundTrip` | crates/engagement-hub/src/idempotency.rs:184-185 | the reader undoes the printer for every list of members |
| `CanonicalJson.ReadPrinted` | crates/engagement-hub/src/idempotency.rs:184-185 | every string is read back whatever quotes, backslashes and control characters it holds (section 3.2.2.2 of RFC 8785) |
| `CanonicalJson.CanonicalJsonStartEngagement` | crates/engagement-hub/src/idempotency.rs:150-186 | the service's inserts, in its own order, produce the canonical text, which reads back as the request |
| `Idempotency.HashDecides` | crates/engagement-hub/src/idempotency.rs:139-143 | the hash tells two requests apart if and only if their canonical texts do not collide under SHA-256 |
| `Idempotency.AnswersFollowTheCreator` | crates/engagement-hub/src/idempotency.rs:16-23 | every row has one creator; a settled caller gets the row's engagement if and only if its hash equals the creator's, and a conflict otherwise; the same with fields for hashes exactly if the two texts do not collide |
| `Idempotency.EqualRequestsAgree` | crates/engagement-hub/src/idempotency.rs:209-248 | if no two callers of a key collide: equal requests get the same answer, different ones never both an engagement; if all callers of a key agree none gets a conflict |
| `Idempotency.EqualRequestsCanConflict` | crates/engagement-hub/src/idempotency.rs:16-23 | a run in which two callers with equal fields both get a conflict |
| `Idempotency.LoopsAtMostOnce` | crates/engagement-hub/src/idempotency.rs:22-23 | a caller goes back to the select at most once, and that select settles it |
| `Idempotency.LoserIsAnswered` | crates/engagement-hub/src/idempotency.rs:22-23 | a caller whose insert met a committed row selects again and gets the row's engagement if and only if the hashes agree, a conflict otherwise |
| `Idempotency.EveryCallerCanFinish` | crates/engagement-hub/src/idempotency.rs:16-23 | from every reachable state a caller not held up by another's uncommitted insert is settled by at most three more statements: by the row there is, or by one it creates with its own hash |
| `Idempotency.AbortedOnlyByRollback` | crates/engagement-hub/src/idempotency.rs:16-23 | over every run a caller is left without an answer only if its own transaction was rolled back |
| `Idempotency.SelectAnswers` | crates/engagement-hub/src/idempotency.rs:209-248 | no row, replay with the terminal flag of statuses 4, 5, 6, or conflict, and nothing else changes |
| `Idempotency.RowsArePermanent` | crates/engagement-hub/src/idempotency.rs:18-23 | a committed row keeps its hash and engagement id in every further run |
| `Retry.WithRetry` | crates/engagement-hub-adapters/src/policies.rs:110-168 | exactly the attempts that the policy allows are made, and no other number fits the trace; only transient errors and unavailability are tried again; a panic ends the call as InternalPanic; the result is the last attempt's, or DeadlineExceeded exactly when less than backoff plus 200 ms remained; both counters are exact |
| `Retry.BackoffClosedForm` | crates/engagement-hub-adapters/src/policies.rs:127-162 | the k-th backoff (k ≥ 1) is min(initial · 2^k, max) |
| `Retry.SleepBudget` | crates/engagement-hub-adapters/src/policies.rs:160-162 | total sleep over n attempts is at most initial · (2^(n−1) − 1), and at most (n−1) · max when initial ≤ max |
| `Retry.PolicyBudgets` | crates/engagement-hub-adapters/src/policies.rs:25-62 | 2, 3, 5 attempts and 1 attempt of the write, default, cleanup and graceful-stop policies, all used exactly if all but the last fail retryably, and their sleep |
| `Retry.FullJitter` | crates/engagement-hub-adapters/src/policies.rs:160 | the pause is at most the backoff and can be any value up to it |
| `Retry.DeadlineFloor` | crates/engagement-hub-adapters/src/policies.rs:148-162 | a retry under a deadline starts with at least 200 ms left, less the sleep's overrun |
| `Retry.RetriesLeaveTheCaller` | crates/engagement-hub-adapters/src/policies.rs:80-162 | under a context derived from the caller's remaining time, a retry starts only with 250 ms of the caller's own time left, less the sleep's overrun, and a caller with less than 250 ms gets none |
| `AtMostOnce.AtMostOneEffect` | crates/engagement-hub-adapters/src/journey_manager_grpc.rs:65-102 | over every run of concurrent calls with lost, late and repeated requests and lost replies, a call creates at most one resource, an Ok names exactly it, and no two calls share one |
| `AtMostOnce.AttemptAnswers` | crates/engagement-hub-adapters/src/journey_manager_grpc.rs:24-102 | over every run, what each reply comes to: a reference ends the call with the resource created for its id, a bad one or a final status with a permanent error, a panic with InternalPanic, any other status goes on exactly if attempts are left |
| `AtMostOnce.LostReplyIsHarmless` | crates/engagement-hub-adapters/src/journey_manager_grpc.rs:65-102 | a run in which a reply is lost and the second attempt is answered with the one resource created |
| `AtMostOnce.CallsAreRetryRuns` | crates/engagement-hub-adapters/src/voice_manager_grpc.rs:76-115 | a finished call is one run of the retry combinator over the outcomes it saw |
| `AtMostOnce.StopVoiceSession` | crates/engagement-hub-adapters/src/voice_manager_grpc.rs:117-150 | a graceful stop sends exactly one request; an abort one to five, stopping early only on a final answer |
| `Audit.AuditTrail` | crates/engagement-hub/src/audit.rs:164-302 | over every run a row is visible iff a transaction that inserted it committed; it holds what its last applied update wrote, or is as inserted; no transaction commits after a failed insert or a rollback; the failure counter is the run's failed inserts plus exhausted finalisations |
| `Audit.PendingExact` | crates/engagement-hub/src/audit.rs:164-302 | a visible row is pending exactly while it has no finalisation time, if and only if its last applied update, if any, was not Pending |
| `Audit.FinalisedAsPending` | crates/engagement-hub/src/audit.rs:285-301 | a run after which a row is pending with a finalisation time |
| `Audit.FinalisationsAreRetries` | crates/engagement-hub/src/audit.rs:234-302 | the attempt steps of one finalisation do what the retry loop does: same rows, same end, same failure count |
| `Audit.OnlyTheLastApplicationShows` | crates/engagement-hub/src/audit.rs:244-301 | retrying an applied but errored update shows only the last application and touches no other row |
| `Audit.AuditDatabase.Phase2Finalize` | crates/engagement-hub/src/audit.rs:234-273 | at most 5 attempts and 750 ms asleep; the failure counter moves exactly when the fifth fails |
| `Base64.RoundTrip` | crates/engagement-hub/src/telemetry/mod.rs:185-215 | decoding undoes encoding for every byte sequence |
| `Base64.DecodeExact` | crates/engagement-hub/src/telemetry/mod.rs:185-215 | the decoder accepts nothing but encodings, so the encoding is a bijection onto them |
| `Base64.EncodeShape` | crates/engagement-hub/src/telemetry/mod.rs:188-214 | four characters per started group of three; padding only in the last two places and only when needed |
| `Base64.LetterValue` | crates/engagement-hub/src/telemetry/mod.rs:186 | the table is the alphabet of table 1 of RFC 4648, without repetition |
| `Base64.PushChunk` | crates/engagement-hub/src/telemetry/mod.rs:190-212 | the shifts and masks cut the 24-bit group into its four 6-bit values |
| `Base64.Base64Encode` | crates/engagement-hub/src/telemetry/mod.rs:185-215 | the loop computes the group-by-group encoding |
| `RequestId.NamesCollide` | clients/go/engagementhub/shared/idempotency/request_id.go:17-22 | exactly when two attempts get the same name: a text moved across the colon from one batch id to the other contact number |
| `RequestId.NamesDistinct` | clients/go/engagementhub/shared/idempotency/request_id.go:13-22 | with colon-free batch ids, or colon-free contact numbers, distinct attempts have distinct names |
| `RequestId.NameReads` | clients/go/engagementhub/shared/idempotency/request_id.go:13-22 | there is a name exactly if no part is empty, and it is batch, contact and attempt set off by colons |
| `RequestId.ColonsCollide` | clients/go/engagementhub/shared/idempotency/request_id.go:17-22 | with colons on both sides two different attempts share a name |

## Left out

- `queued_event_count` and the lag gauge: a sum over buffer lengths.
- Batch subscribers across reconnects: gap-fill is per engagement in the source, so recovery is stated for engagement subscribers.
- The event writer's transaction is a set of interleaved steps on values rather than one imperative method, because its statements interleave with other transactions.
- UTF-8 encoding, SHA-256 and UUIDv5 internals: hashing is an opaque function of the text.
- Serialising spans to OTLP JSON and purging old trace files: element-wise maps and filters.
- `SHUTDOWN_TIMEOUT` expiry, runtime aborts and panicking exporters.
- Overflow of `Duration` and of 64-bit counters and sequences: integers are unbounded.
- The other adapters, the fake ports, servers, configuration and metrics registration: no behaviour beyond the modelled combinator.
- Retry.WithRetry: `max_attempts = 0`, which the function asserts against, is excluded.

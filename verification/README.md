# Coupon issuing: a verified model

Three servers hand out a limited number of coupons. server-a takes requests and turns them away
early when a coupon type is known to be sold out. server-b stores each application in Redis, puts it
on a Kafka topic and watches over it until it has an outcome. server-c decides: it locks the stock,
writes the coupon row and an outbox record in one transaction, and an outbox poller sends the result
back to server-b. Users redeem their coupons at server-c.

The project models this protocol and proves what it promises, over all interleavings, all runs and
all inputs. `dafny verify dfyconfig.toml` checks everything.

## How it is built

- `payloads.dfy`, `coupon_db.dfy`: the messages and their checks; the tables of server-c and the
  *reference*: what one committed operation does to them.
- `server_c.dfy`, `server_c_proofs.dfy`, `server_c_theorems.dfy`: server-c as a step machine. Any
  number of issue transactions and redeem calls and the outbox poller take one statement at a time,
  in any order. Plain reads see the snapshot of the step that takes them and may be stale later;
  locking reads, UNIQUE checks and guarded UPDATEs see the latest state; an insert takes its two
  UNIQUE keys one after the other; locks are held to the end;
  any transaction may abort at any statement, and the process may die right after a commit.
- `sold_out_cache.dfy`, `issue_requests.dfy`: what that machine's checks after a commit put into the cache,
  and what server-a answers from it.
- `redeem_answers.dfy`, `issued_rows.dfy`: what its answers to redeem mean, and from which request each row
  and result comes.
- `redis.dfy`, `system.dfy`, `system_proofs.dfy`, `system_theorems.dfy`: server-b next to that machine.
  Each Redis command of accept, of the result consumer and of the recovery scheduler is a step; each of
  them may be cut off between two commands. A request may be delivered any number of times, a result
  again only while its record is not committed. A send ends in one of three ways: sent, reported failed
  but sent (then or later), or not sent.
- `scenario.dfy`, `give_up_race.dfy`, `finished_entries.dfy`: one run in which a result overtakes a
  visit; when the agreement of Redis and server-c breaks; when a finished application is found again.
- `result_offsets.dfy`, `calm.dfy`, `outcomes.dfy`, `final_outcomes.dfy`, `scheduler_progress.dfy`,
  `progress.dfy`: the offsets of the result consumer; runs in which nothing fails; which row's outcome
  can still be told, and which is lost; and that every accepted application can be finished. The runs
  built here take batches in the order and size of the queries, records in offset order, each once,
  and a clock that goes on from any instant.
- `alone.dfy`: each party of the machine, left alone, does what the object below does.
- `recovery.dfy`, `fairness.dfy`, `sweep_fairness.dfy`, `run_fairness.dfy`: how many visits of the
  scheduler an application needs, by when it has an outcome, and after how many sweeps its turn comes,
  for sweeps on their own and for runs of the whole system. A visit may be cut between any two of its
  commands.
- `outbox_fairness.dfy`: after how many polls of the outbox a record's turn comes.
- `issue_processor.dfy`, `redeem_service.dfy`, `pending_store.dfy`, `request_consumer.dfy`,
  `result_consumer.dfy`, `outbox_poller.dfy`: the objects of the program as classes that change their
  state in place, proved against the same functions the machines are made of. Every statement and
  every Redis command may throw; a transaction's snapshot may lack rows.
- `redis_keys.dfy`, `local_date_time.dfy`: what is printed and parsed.
- `basics.dfy`: a few facts shared by several modules.

Instants are epoch milliseconds. The clock, the coupon code drawn, request ids, what a lookup or a
query answered, and which statement or send fails are parameters or free choices of a step. The clock
reading and the code of an issue transaction are chosen when it begins; as they are arbitrary,
nothing depends on when. Table rows are known by their position. Stock starts full, is never
restocked and no hash expires. Batch size, cutoff, attempt cap and commit threshold are constants; a
cap and a threshold are positive.

## Where the code and its documentation differ

- `docs/reports/consistency.md` promises an outcome within 30 seconds, three cutoffs of ten. A give-up
  comes later than that by every delay of a sweep, 30.3 seconds with sweeps a tenth of a second late:
  `Recovery.WithinTheCapExactly`, `Recovery.ThirtySecondsAreMissed`.
- It can also come much too early. An attempt is counted by the first of several Redis commands; when
  a later one throws, the sweep goes on with the entry still due, so that three sweeps in a row can
  use up all attempts without anything being sent again, and give up after 12 seconds:
  `Recovery.TwelveSecondsCanBeEnough`. The wait is max cutoffs when no retry was cut like that, and
  otherwise exactly when further visits made up for it: `Recovery.MaxCutoffsAreKeptExactly`,
  `Recovery.GivesUpAfterItsWaits`.
- A finished entry is said to leave the set so that the scheduler does not find it again. That holds
  exactly when its ZREM was run and no retry of it is between its decision and its ZADD:
  `FinishedEntries.FinishedForGood`. So it fails in two ways: the ZREM throws
  (`Recovery.FailedEntriesCanBeVisitedAgain`), or the result is written while a retry is under way,
  which then puts the entry back (`FinishedEntries.ARetryCanPutAFinishedEntryBack`).
- The store's comment calls it harmless that HSETNX, HSET and ZADD are not one atomic command. For the
  tables it is; but an accept that dies before the ZADD leaves a key nobody recovers and everybody is
  answered DUPLICATE for: `SystemTheorems.AcceptCanBeCutOff`, `SystemTheorems.CutOffStaysCutOff`,
  `SystemTheorems.RecoverableIffEnlisted`.
- The scheduler is described as leaving failing lookups for the next cycle. They stay at the head of
  the set, and batchSize of them keep everybody behind them waiting: `Fairness.FailingHeadStarves`,
  `SweepFairness.TheSecondIsNeverReached`. The outbox has the same weakness:
  `OutboxFairness.FailingRecordsStarve`.
- Giving up is written without looking at what Redis says by then, so a success can be overwritten:
  `GiveUpRace.OnlyAGiveUpBreaksAgreement`, `GiveUpRace.GiveUpCanOverwriteSuccess`. It stays
  overwritten, over every run, exactly when the result is sent and its record committed and no visit is
  to come: `Progress.WrongForGood`, `GiveUpRace.TheOverwriteIsFinal`.

## Model

| member | source | states |
|---|---|---|
| CouponDb.IssueKeepsTables | apps/server-c/src/application/coupon-issue.processor.ts:92-161 | One issue keeps everything that is promised of the tables: stock plus granted rows is the total and never below zero, one row per user and coupon type and per code, nobody turned away while stock is left, row and outbox record in step |
| CouponDb.WriteKeepsTables | apps/server-c/src/application/coupon-issue.processor.ts:136-156 | The writes of one decided request, with the new count written as an absolute value, keep the same |
| CouponDb.UseKeepsTables | apps/server-c/src/infrastructure/persistence/typeorm-user-coupon.repository.ts:82-103 | Redeeming a successful row keeps the same: a used coupon still counts as granted and its message still tells it |
| CouponDb.MarkKeepsTables | apps/server-c/src/infrastructure/persistence/typeorm-outbox-event.repository.ts:48-58 | Marking outbox records published keeps the same |
| CouponDb.ExactlyTheTotalIsIssued | apps/server-c/src/domain/coupon-type-inventory.ts:38-44 | Of the users a stock decision was taken for, exactly the smaller of their number and the total have a coupon |
| CouponDb.WhatAnIssueDoes | apps/server-c/src/application/coupon-issue.processor.ts:92-161 | An issue writes one row and one unpublished result with the fields of its request, or nothing when the user has a row or event, stock row or a free code is missing; failed outside the event's time, within it sold out exactly when no stock was left, and else one is taken |
| CouponDb.PlaceholderCodesDiffer | apps/server-c/src/application/coupon-issue.processor.ts:244-252 | A placeholder code has at most twelve characters, begins with X, and two of them are equal exactly when the first eleven characters of the request ids are |
| IssuedRows.EveryRowGoesBackToARequest | apps/server-c/src/application/coupon-issue.processor.ts:192-238 | After any run every row, and the record beside it, is that of a committed run of its request, field by field |
| IssuedRows.FailedMeansOutsideTheEvent | apps/server-c/src/domain/event.ts:32-41 | After any run the event of every row exists, and the row is failed exactly when its issue time is before the start or after the end of that event |
| IssuedRows.ResultsCarryTheirRequestId | apps/server-c/src/application/coupon-issue.processor.ts:211-240 | In every reachable state of the whole system each outbox record has the request id, user, event and coupon type of a message on the request topic, the ones stored for the application in Redis |
| IssuedRows.TopicCarriesRequestIds | apps/server-c/src/application/coupon-issue.processor.ts:211-240 | And so has every message on the result topic |
| IssuedRows.MessagesSayWhatIsStored | apps/server-b/src/application/pending-issue.scheduler.ts:165-172 | Every message on the request topic, first or sent again, has the request id, event and creation time stored for its application |
| Payloads.AssertIssueRequestPayload | libs/common/src/coupon/payloads.ts:39-59 | A request passes exactly when its id is there and not blank, its three numbers are positive and its time is there; a missing id is the internal error, not the bad argument |
| Payloads.AssertIssueResultPayload | libs/common/src/coupon/payloads.ts:78-90 | A result passes exactly when its id and time are there, its status is a known one, and a success has its code; every refusal is the internal error |
| ServerCProofs.StepKeepsInv | apps/server-c/src/application/coupon-issue.processor.ts:49-162 | Every statement of every issue transaction, redeem call and poll, in any interleaving, with stale reads, lock waits, aborts and crashes, keeps the invariant: among it that the stock decision a transaction carries is still the one the committed tables give |
| ServerCProofs.RunKeepsInv | apps/server-c/src/application/coupon-issue.processor.ts:49-162 | So does every run |
| ServerCProofs.CommitIsIssue | apps/server-c/src/application/coupon-issue.processor.ts:92-161 | At its commit a transaction writes what running it alone on the committed tables would: what it read and locked earlier is still true |
| ServerCTheorems.OnlyCommitsWrite | apps/server-c/src/application/coupon-issue.processor.ts:88-92 | Only commits change the tables; a statement, an abort or a lost race leaves them as they were |
| ServerCTheorems.Serializability | apps/server-c/src/application/coupon-issue.processor.ts:49-162 | After any run the tables equal the committed operations, issues among them as atomic issues, run one after the other in commit order from the first tables; all else is a no-op there |
| ServerCTheorems.StockIsConserved | apps/server-c/src/application/coupon-issue.processor.ts:125-156 | After any run, for every event and coupon type: available plus success and used rows is the total, and available is not negative |
| ServerCTheorems.ExactlyTheTotalIsServed | apps/server-c/src/domain/coupon-type-inventory.ts:38-44 | After any run exactly the smaller of total and number of users decided hold a coupon |
| ServerCTheorems.RunKeepsTotals | apps/server-c/src/infrastructure/persistence/typeorm-coupon-type-inventory.repository.ts:46-55 | No run changes a total or raises an available count |
| ServerCTheorems.RunExtendsRows | apps/server-c/src/domain/user-coupon.ts:11-45 | Rows are never removed or rewritten: the only change a row can see is success to used |
| ServerCTheorems.RedeemIsLinearizable | apps/server-c/src/application/redeem-coupon.service.ts:30-83 | Over all interleavings of arbitrarily many calls: at most one call per code redeems, every used row has one that did, everyone told a use time owns the row and is told its time, and in real time: whoever was granted or told of the use, or lost a race for it, is told of the use by every call begun later |
| RedeemAnswers.OwnersCanRedeem | apps/server-c/src/application/redeem-coupon.service.ts:57-81 | From every reachable state the owner of an unused coupon that no other call holds can redeem it: the call's own statements, in a row, end with Redeemed(now) and the row used at now |
| RedeemAnswers.WhatTheReadDecides | apps/server-c/src/application/redeem-coupon.service.ts:30-57 | What a call is told from the row it finds: not found when there is none of its own, the time of use when used, not redeemable when never granted; otherwise it goes on |
| RedeemAnswers.RefusedMeansNeverGranted | apps/server-c/src/application/redeem-coupon.service.ts:57-59 | Over all runs: who is told the coupon is not in a state to be redeemed owns a sold-out or failed row with that code |
| ServerCTheorems.EveryReplayTellsTheWinnersTime | apps/server-c/src/application/redeem-coupon.service.ts:45-55 | Any two callers told when a coupon was used are told the same instant |
| ServerCTheorems.OnlySuccessesAreUsed | apps/server-c/src/infrastructure/persistence/typeorm-user-coupon.repository.ts:82-103 | A sold-out or failed row never changes again, although the UPDATE looks only at the version |
| ServerCTheorems.EveryRowHasItsResult | apps/server-c/src/application/coupon-issue.processor.ts:192-240 | Rows and outbox records correspond one to one and tell the same, a published record is on the topic, and every message on the topic passes the check and tells a row |
| ServerCTheorems.TopicTellsARow | apps/server-c/src/application/outbox.poller.ts:75-78 | Every message on the result topic is the result of some row |
| ServerCTheorems.CachedStockGrantsNothing | apps/server-c/src/application/coupon-issue.processor.ts:164-190 | Once a key is in the sold-out cache its stock is 0 at every later state and nothing more of it can be granted |
| IssueRequests.IssueRequestService.Issue | apps/server-a/src/application/issue-request.service.ts:34-61 | Answered SOLD_OUT without a call to server-b exactly when the read of the cache works and has the key; otherwise server-b is called once and its answer passed on; one log entry either way, REJECTED for exactly the internal error |
| IssueRequests.IssueRequestService.IsSoldOut | apps/server-a/src/infrastructure/redis/coupon-availability.cache.ts:25-38 | A read that fails counts as not sold out |
| IssueRequests.UnreadableCacheRefusesNothing | apps/server-a/src/infrastructure/redis/coupon-availability.cache.ts:28-36 | With an unreadable cache server-b is asked, whatever state server-c is in |
| IssueRequests.GoneStockIsRefusedAtTheDoor | apps/server-a/src/application/issue-request.service.ts:35-48 | After any run of server-c a request for stock that somebody asked for and that is gone is answered SOLD_OUT without a call to server-b, once no check after a commit is under way or was lost, and a request for any other stock is not |
| IssueRequests.RefusedAtTheDoorCouldNotBeGranted | apps/server-a/src/application/issue-request.service.ts:35-48 | Whoever is answered without a call to server-b could not have been granted a coupon, at once or at any later time |
| SoldOutCache.DepletedStockIsCached | apps/server-c/src/application/coupon-issue.processor.ts:164-190 | After any run a stock is in the cache exactly when somebody asked for it and it is gone, once no check of it after a commit is under way or was lost; so stock that starts at 0 is cached by its first request, and stock that did not is cached when it is gone |
| SoldOutCache.RunKeepsChecks | apps/server-c/src/application/coupon-issue.processor.ts:164-190 | Over any run there is a request behind every cached key and every check under way, and behind every refusal a check that is under way, done or lost |
| ServerCTheorems.WaitingClimbs | apps/server-c/src/application/coupon-issue.processor.ts:92-161 | Along any chain of transactions waiting for each other, for the stock row, for a code or, with a code already held, for the key of a user, the lock rank strictly climbs |
| ServerCTheorems.NoDeadlock | migrations/server-c/1756000000000-Schema.ts:61-80 | So no chain of any length closes: there is no deadlock between the stock lock and the two UNIQUE keys, which an insert takes one after the other |
| ServerCTheorems.SomeoneCanGo | apps/server-c/src/application/coupon-issue.processor.ts:92-161 | While transactions are unfinished one of them is not waiting |
| ServerCTheorems.EverythingCanFinish | apps/server-c/src/application/coupon-issue.processor.ts:92-161 | From every state, all transactions can be run to their ends without aborting one |
| ServerC.FindCode | apps/server-c/src/infrastructure/persistence/typeorm-user-coupon.repository.ts:29-32 | The lookup finds a row with the code or there is none |
| Repositories.CouponTypeInventory.Decrement | apps/server-c/src/domain/coupon-type-inventory.ts:38-44 | Takes one and says so exactly when there was one |
| Repositories.Tables.FindForUpdate | apps/server-c/src/infrastructure/persistence/typeorm-coupon-type-inventory.repository.ts:18-33 | The aggregate carries the row, and is missing exactly when the row is |
| Repositories.Tables.InsertCoupon | apps/server-c/src/infrastructure/persistence/typeorm-user-coupon.repository.ts:57-73 | Adds the row or refuses it under the UNIQUE key that is checked first; a refused insert leaves the table alone |
| Repositories.Tables.MarkCouponUsed | apps/server-c/src/infrastructure/persistence/typeorm-user-coupon.repository.ts:82-103 | One row affected exactly when row and version match, and then used, stamped and one version on; otherwise nothing changes |
| IssueProcessor.CouponIssueProcessor.Process | apps/server-c/src/application/coupon-issue.processor.ts:49-86 | Whatever rows its snapshot misses and whichever statements fail: a run that returns leaves the tables exactly as the reference issue does and its user with a row, one that throws leaves them untouched; when it throws; a duplicate found by the UNIQUE key is rolled back and swallowed; the row and record it appends, field by field; and exactly when the sold-out key is set |
| IssueProcessor.WhenARunThrows | apps/server-c/src/application/coupon-issue.processor.ts:92-130 | With no statement failing a run throws exactly when its snapshot shows no row and it finds no event, in the event's time no stock row, or its code taken; and with one failing whenever it comes to it |
| IssueProcessor.TheCheckIsOnlyAShortcut | apps/server-c/src/application/coupon-issue.processor.ts:93-104 | For every sequence of messages and whatever each snapshot misses, running with the exists check and on the UNIQUE keys alone leave the same tables, those of the reference |
| IssueProcessor.CouponIssueProcessor.RunIssueTransaction | apps/server-c/src/application/coupon-issue.processor.ts:88-162 | The transaction body: on a normal return the tables are the reference issue, and the later stock check is asked for exactly when a row with a stock decision was written |
| IssueProcessor.CouponIssueProcessor.Save | apps/server-c/src/application/coupon-issue.processor.ts:192-223 | Row and outbox record are both written or the call throws |
| IssueProcessor.CouponIssueProcessor.MarkSoldOutIfDepleted | apps/server-c/src/application/coupon-issue.processor.ts:171-190 | Sets the key exactly when the fresh count is 0 and neither the read nor the write fails |
| IssueProcessor.DroppingDuplicatesChangesNothing | apps/server-c/src/application/coupon-issue.processor.ts:93-104 | For every sequence of messages, leaving out those whose key already has a row when their turn comes gives the same tables |
| IssueProcessor.RedeliveryIsHarmless | apps/server-c/src/application/coupon-issue.processor.ts:57-81 | Deleting any one message whose key already has a row, however much later it comes, leaves the final tables unchanged |
| IssueProcessor.SwallowingInsideLeaksStock | apps/server-c/src/application/coupon-issue.processor.ts:59-68 | Catching the duplicate inside the transaction instead would break stock conservation exactly when stock was left |
| RedeemService.RedeemCouponService.Redeem | apps/server-c/src/application/redeem-coupon.service.ts:30-83 | Not found exactly when no row of the snapshot has code and owner; otherwise the answer and the new table follow from the row as read and as it is at the UPDATE: replay, not redeemable, lost race, or one use at the time told, which is then the use time of the row |
| RedeemService.RetryAfterARaceReplays | apps/server-c/src/application/redeem-coupon.service.ts:71-76 | Whoever lost a race is told of the winner's use by the next call |
| PendingStore.RedisPendingIssueStore.SavePendingIfAbsent | apps/server-b/src/infrastructure/redis/redis-pending-issue.store.ts:42-78 | The first caller for a key stores a complete entry with one attempt and enlists it; every other caller changes nothing; a call cut off leaves exactly its first commands, from the first on the key is taken |
| PendingStore.RedisPendingIssueStore.RecordRepublish | apps/server-b/src/infrastructure/redis/redis-pending-issue.store.ts:80-102 | Counts, stamps and re-scores; status, code and application stay; a call cut off has counted the attempt and left the score |
| PendingStore.RedisPendingIssueStore.MarkResult | apps/server-b/src/infrastructure/redis/redis-pending-issue.store.ts:104-125 | Writes the outcome, keeps a code it is not given, leaves the set; a call cut off leaves exactly its first commands |
| PendingStore.RedisPendingIssueStore.FindPendingOlderThan | apps/server-b/src/infrastructure/redis/redis-pending-issue.store.ts:127-204 | Returns the readable entries in order, takes members without a hash off the set, changes nothing else; throws at the first member whose commands do |
| PendingStore.IssueRequestPublisher.Publish | apps/server-b/src/infrastructure/kafka/issue-request.publisher.ts:83-100 | An invalid payload is never sent; every message on the topic passes the check server-c makes; a failed send may have been appended |
| PendingStore.CouponIssueAcceptService.Accept | apps/server-b/src/application/coupon-issue-accept.service.ts:38-82 | Duplicate exactly when the key was taken, and then nothing changes; accepted means stored, readable, enlisted, whatever became of the send, and the message sent is the one the stored entry rebuilds; when a Redis command throws nothing is sent and nobody is answered |
| PendingStore.PendingIssueScheduler.Run | apps/server-b/src/application/pending-issue.scheduler.ts:84-97 | A tick during a sweep does nothing; any other is one sweep, ended early by a fetch that throws, and always clears the flag |
| PendingStore.PendingIssueScheduler.Sweep | apps/server-b/src/application/pending-issue.scheduler.ts:99-153 | Each entry fetched gets its turn in order; a turn that throws, in the lookup or between two commands, leaves what it did so far and does not stop the others; what is sent is the stored application, after its retry is recorded and while attempts are left |
| PendingStore.PendingIssueScheduler.Republish | apps/server-b/src/application/pending-issue.scheduler.ts:155-187 | The attempt is counted before the send, so it counts when a later command or the send fails; nothing is sent before the retry is recorded |
| PendingStore.WhatASweepSends | apps/server-b/src/application/pending-issue.scheduler.ts:109-187 | A sweep sends, in the order of the fetch and once each, the stored application of exactly the entries server-c knows nothing of, with an attempt left, whose commands all worked, whose message passes its check and whose send did not fail outright |
| PendingStore.DueRetriesAreSent | apps/server-b/src/application/pending-issue.scheduler.ts:127-175 | No retry that is due goes unsent, and nothing else is sent |
| PendingStore.WhatAFetchReads | apps/server-b/src/infrastructure/redis/redis-pending-issue.store.ts:140-204 | A fetch returns, in order, exactly the members whose hash has request id, event, status and creation time, with those values and an attempt count of one when there is none |
| PendingStore.WhatAFetchRemoves | apps/server-b/src/infrastructure/redis/redis-pending-issue.store.ts:155-165 | And takes exactly the members without a hash off the set |
| SweepFairness.WhatATurnLeaves | apps/server-b/src/application/pending-issue.scheduler.ts:109-152 | What a turn leaves in the hash and the set, command by command, for each answer of the lookup |
| AloneRuns.AnIssueAlone | apps/server-c/src/application/coupon-issue.processor.ts:92-161 | A transaction that is alone runs to its end in the machine, and leaves in the tables what one issue of its request does |
| AloneRuns.AnAcceptAlone | apps/server-b/src/application/coupon-issue-accept.service.ts:38-82 | The machine's accept, in a row: a taken key changes nothing, a free one is stored, enlisted and sent exactly when the message passes its check |
| AloneRuns.AResultAlone | apps/server-b/src/infrastructure/kafka/coupon-issue-result.consumer.ts:144-177 | The machine's result consumer, in a row, writes status, code and removal as the object's markResult does |
| AloneRuns.ASweepAlone | apps/server-b/src/application/pending-issue.scheduler.ts:99-153 | The machine's sweep, in a row, does to Redis and to the request topic exactly what one sweep of the scheduler's object does with the rows server-c has |
| AloneRuns.AFailedSendMayArrive | apps/server-b/src/infrastructure/kafka/issue-request.publisher.ts:83-100 | A request whose send failed is not on the topic yet, its caller is answered all the same, and it may arrive later exactly when it is valid |
| AloneRuns.WhatALostCommitLeaves | apps/server-c/src/application/coupon-issue.processor.ts:88-92 | A commit whose answer is lost has written what any other commit writes |
| AloneRuns.WhatAResultSendLeaves | apps/server-c/src/application/outbox.poller.ts:74-86 | A result is on the topic unless its send failed outright, and is to be marked exactly when the poller saw no failure |
| SystemProofs.StepKeepsInv | apps/server-b/src/infrastructure/redis/redis-pending-issue.store.ts:42-125 | With every Redis command its own step and accept, result consumer, scheduler and server-c interleaved, each cut off anywhere, every step keeps the invariant |
| SystemProofs.RunKeepsInv | apps/server-b/src/infrastructure/redis/redis-pending-issue.store.ts:42-125 | So does every run |
| SystemProofs.BothPathsAgree | apps/server-b/src/infrastructure/kafka/coupon-issue-result.consumer.ts:199-213 | What the result consumer writes from a message is what the scheduler would write from the row it tells |
| SystemTheorems.EndToEndAgreement | apps/server-b/src/application/pending-issue.scheduler.ts:109-144 | In every reachable state: Redis SUCCESS or SOLD_OUT means server-c has such a row, a stored code is that row's, FAILED means a failed row or a give-up with all attempts used |
| SystemTheorems.NeverGivenUpMeansExact | apps/server-b/src/application/pending-issue.scheduler.ts:195-206 | For a key never given up Redis is without an outcome or shows exactly the mapping of server-c's row, whichever path wrote it |
| SystemTheorems.NoAcceptedRequestIsLost | apps/server-b/src/application/coupon-issue-accept.service.ts:38-82 | Once ACCEPTED, a key is in the set or has its outcome, and every member of the set has a complete, readable hash |
| SystemTheorems.RecoverableIffEnlisted | apps/server-b/src/infrastructure/redis/redis-pending-issue.store.ts:37-40 | With no accept under way, a stored key can be recovered or is decided exactly when its accept reached the ZADD |
| SystemTheorems.AcceptCanBeCutOff | apps/server-b/src/infrastructure/redis/redis-pending-issue.store.ts:52-76 | A run that ends between HSETNX and ZADD: the key stays taken, nobody works on it, and the next accept is answered DUPLICATE |
| SystemTheorems.CutOffStaysCutOff | apps/server-b/src/infrastructure/redis/redis-pending-issue.store.ts:39-40 | Such a key stays so over every run |
| SystemTheorems.OutcomesStay | apps/server-b/src/infrastructure/redis/redis-pending-issue.store.ts:112-125 | No run turns an outcome back into PENDING |
| SystemTheorems.OneMessagePerApplication | apps/server-b/src/application/pending-issue.scheduler.ts:165-172 | All messages of an application, first or sent again, late or duplicated, are one and the same, and valid |
| SystemTheorems.RequestIdIsStoredOnce | apps/server-b/src/infrastructure/redis/redis-pending-issue.store.ts:52-70 | However many accepts race, from the HSET on one request id, one event and one creation time are stored and stay |
| SystemTheorems.InvalidNeverReachesServerC | apps/server-b/src/infrastructure/kafka/issue-request.publisher.ts:83-100 | A stored application the check refuses, for whatever reason, never gets a message or a row, and no outcome but a give-up with all attempts used |
| SystemTheorems.NonPositiveKeysHaveNoRow | libs/common/src/coupon/payloads.ts:46-56 | Nor does any key with a non-positive user or coupon type, stored or not |
| SystemTheorems.EveryResendIsCounted | apps/server-b/src/application/pending-issue.scheduler.ts:155-187 | Over any run, what is sent again is paid for by the attempt counter |
| SystemTheorems.ResentAtMostCapTimes | apps/server-b/src/application/pending-issue.scheduler.ts:130-138 | Whatever fails, races or crashes, an application is sent again at most max - 1 times |
| FinishedEntries.FinishedForGood | apps/server-b/src/infrastructure/redis/redis-pending-issue.store.ts:120-124 | An application with an outcome is never in the set again, over every run, exactly when it is off the set and the scheduler is not between its decision to retry it and the ZADD of that retry |
| FinishedEntries.OnlyARescoreBringsItBack | apps/server-b/src/infrastructure/redis/redis-pending-issue.store.ts:80-102 | Of all steps of all parties exactly the ZADD of a retry puts a finished application back into the set |
| FinishedEntries.TheLastCommandTakesItOff | apps/server-b/src/infrastructure/redis/redis-pending-issue.store.ts:104-125 | The ZREM of a markResult, whoever runs it, leaves the application with its outcome and off the set |
| FinishedEntries.ARetryCanPutAFinishedEntryBack | apps/server-b/src/infrastructure/redis/redis-pending-issue.store.ts:97-101 | It happens with no command failing: a run in which the lookup answers null, the result is then written completely, and the retry puts the SUCCESS back into the set and is about to send it again |
| ResultOffsets.RunKeepsOffsets | apps/server-b/src/infrastructure/kafka/coupon-issue-result.consumer.ts:98-130 | Over every run only resolved records are committed, no record is resolved while its markResult is under way, and each markResult under way is its record's |
| SchedulerProgress.ComesToRest | apps/server-b/src/application/pending-issue.scheduler.ts:99-153 | With nothing failing a sweep under way, wherever it stands, comes to its end, and each entry it had in hand has left the set or has one attempt more |
| SchedulerProgress.SweepsEmptyTheSet | apps/server-b/src/application/pending-issue.scheduler.ts:99-144 | Sweep after sweep, each over the oldest batchSize entries that are stale by then, the set empties: every entry gets an outcome, at the latest by the give-up |
| Progress.PollsDrain | apps/server-c/src/application/outbox.poller.ts:68-91 | Poll after poll, each over the oldest batchSize pending records, every record is sent and marked |
| Progress.RecordsAreTaken | apps/server-b/src/infrastructure/kafka/coupon-issue-result.consumer.ts:109-126 | The records of the topic are taken one after the other, each once, and each runs its markResult to the end |
| Progress.EverythingCanFinish | apps/server-b/src/application/pending-issue.scheduler.ts:99-153 | From every reachable state a run in which nothing fails, crashes or is delivered twice and the clock goes on brings everything to rest: every accepted application has an outcome and is never in the set again over any later run, and Redis shows the outcome of a row exactly when that could still be told in the first state (a visit, a send or an unconsumed record is to come, or it shows it already) |
| Progress.WhereCalmRunsEnd | apps/server-b/src/infrastructure/kafka/coupon-issue-result.consumer.ts:109-126 | Of all runs in which nothing fails and that end with nothing left to do: where a row's outcome could no longer be told none ends with it, and where no give-up is about to be written and no wrong outcome about to leave the set all do, as soon as it could be told |
| Progress.WrongForGood | apps/server-b/src/application/pending-issue.scheduler.ts:131-138 | Redis never shows the outcome of a row, over all runs with all failures, crashes and redeliveries, exactly when it is wrong now, the application is off the set and has no turn of the sweep to come, its result is sent and marked and its records are committed; it then says FAILED for ever although the row does not |
| Progress.ReachableStatesAreFine | apps/server-b/src/application/pending-issue.scheduler.ts:99-103 | What the results above ask of a state, that no instant is before 1970 among it, holds of every state a run with such a clock reaches |
| Outcomes.StepKeepsTold | apps/server-b/src/infrastructure/kafka/coupon-issue-result.consumer.ts:144-177 | No step of any party that does not fail makes it possible again to tell a row's outcome, and none of them takes it away but a give-up written over the result or a removal after it |
| FinalOutcomes.SafeStaysTold | apps/server-b/src/infrastructure/kafka/coupon-issue-result.consumer.ts:144-177 | With neither under way, whether a row's outcome can be told stays the same over every run in which nothing fails |
| FinalOutcomes.AbandonedForGood | apps/server-b/src/application/pending-issue.scheduler.ts:131-138 | Once nothing that is to come looks at a wrong outcome again, that stays so over every run |
| GiveUpRace.OnlyAGiveUpBreaksAgreement | apps/server-b/src/application/pending-issue.scheduler.ts:131-138 | Of all steps of all parties only the status write of a give-up can break the agreement on a key, and it does exactly when the key's row does not say failed |
| GiveUpRace.GiveUpCanOverwriteSuccess | apps/server-b/src/application/pending-issue.scheduler.ts:131-138 | A run in which Redis and server-c both say SUCCESS and the give-up decided earlier turns Redis to FAILED |
| GiveUpRace.TheOverwriteIsFinal | apps/server-b/src/application/pending-issue.scheduler.ts:131-138 | After that run, with the record committed and the result marked as sent, the row says success and Redis says FAILED over every further run |
| Recovery.VisitsShow | apps/server-b/src/application/pending-issue.scheduler.ts:109-152 | While server-c does not know an application, Redis shows exactly what its visits come to, wherever each was cut: attempts counted, score, outcome, in the set or not; never more than max attempts |
| Recovery.GivesUpAfterItsWaits | apps/server-b/src/application/pending-issue.scheduler.ts:130-144 | However often sending fails and wherever visits are cut: FAILED only with all max attempts counted, and no earlier than one cutoff after creation and one more for each retry that moved the score, so max cutoffs when every retry did |
| Recovery.MaxCutoffsAreKeptExactly | apps/server-b/src/infrastructure/redis/redis-pending-issue.store.ts:88-100 | With sweeps at least a given time apart, every schedule of the same visits keeps the give-up max cutoffs away exactly when the waits after retries that moved the score and the pauses after visits that did not add up to it; they do when every retry moved the score |
| Recovery.OnlyCutVisitsAreRepeated | apps/server-b/src/application/pending-issue.scheduler.ts:134-144 | At most max visits count a retry or take the entry off, and the application is over with its entry off exactly when there were max of them; every further visit was cut short, and after the entry is off no visit is due |
| Recovery.GivesUpByThen | apps/server-b/src/application/pending-issue.scheduler.ts:99-153 | With no visit more than gap late, n visits end at most n gaps after the waits they made; with max uncut ones that is max times (cutoff + gap) after creation |
| Recovery.WithinTheCapExactly | docs/reports/consistency.md:104 | A give-up is within max cutoffs exactly when all delays together are no longer than the waits that cut retries left out; without cut retries, when there was no delay at all |
| Recovery.TwelveSecondsCanBeEnough | apps/server-b/src/application/pending-issue.scheduler.ts:146-152 | With the default settings, retries cut after counting at 10 and 11 seconds let the sweep at 12 seconds give up |
| Recovery.FailedEntriesCanBeVisitedAgain | apps/server-b/src/infrastructure/redis/redis-pending-issue.store.ts:120-124 | A give-up whose ZREM fails leaves a FAILED entry in the set, which is visited again; the exact condition is FinishedEntries.FinishedForGood |
| Recovery.KnownOutcomesClose | apps/server-b/src/application/pending-issue.scheduler.ts:116-126 | Whatever visits came before, the first uncut visit that finds the row closes the application with the row's outcome and code |
| Recovery.ThirtySecondsAreMissed | docs/reports/consistency.md:85-104 | With the default settings and sweeps a tenth of a second late the outcome comes after 30.3 seconds |
| Fairness.ReachedWhenFewAhead | apps/server-b/src/infrastructure/redis/redis-pending-issue.store.ts:131-138 | A sweep reaches a stale entry exactly when fewer than batchSize entries are ahead of it |
| Fairness.RoundShortensTheQueue | apps/server-b/src/application/pending-issue.scheduler.ts:109-152 | A sweep that passes an entry over takes at least batchSize minus the failing entries off the queue ahead of it |
| Fairness.EveryStaleEntryIsReached | apps/server-b/src/application/pending-issue.scheduler.ts:99-153 | With r entries ahead, f of them failing and f below the batch size, an entry is passed over at most (r - f) / (batchSize - f) times; r / batchSize without failures |
| Fairness.FailingHeadStarves | apps/server-b/src/application/pending-issue.scheduler.ts:146-152 | With batchSize failing entries ahead no sweep ever reaches the entry |
| SweepFairness.TheSecondIsNeverReached | apps/server-b/src/application/pending-issue.scheduler.ts:146-152 | It happens: room for one entry, a head whose lookup throws, and however many sweeps there are, each leaves everything as it was and the second entry is never fetched |
| SweepFairness.EachEntryGetsItsOwnTurn | apps/server-b/src/application/pending-issue.scheduler.ts:109-152 | A sweep with nothing else running does to each entry what its own turn alone would do |
| SweepFairness.SweepIsARound | apps/server-b/src/application/pending-issue.scheduler.ts:99-153 | The sweep of the scheduler class, run in one go and with results and new accepts after it, is a round in the sense of the fairness bound; failing are the entries whose lookup or whose Redis commands throw |
| SweepFairness.SweepsReachEveryEntry | apps/server-b/src/application/pending-issue.scheduler.ts:99-153 | The fairness bound holds of such sweeps |
| RunFairness.StepStaysMidSweep | apps/server-b/src/application/pending-issue.scheduler.ts:99-153 | With accepts, results, server-c and the commands of the sweep interleaved, every step keeps this: no entry moves forward, and each fetched one is in hand, abandoned, off the set or scored behind |
| RunFairness.SweepWithOthersIsARound | apps/server-b/src/application/pending-issue.scheduler.ts:99-153 | So any stretch of a run from one sweep to the next is a round, wherever the sweep is cut off, provided the clock is past the score of the waiting entry whenever another is placed; failing are the entries that were abandoned |
| RunFairness.EverySweptEntryIsReached | apps/server-b/src/application/pending-issue.scheduler.ts:99-153 | The fairness bound holds in every such run of the whole system |
| RequestConsumer.CouponIssueRequestConsumer.Deliver | apps/server-c/src/infrastructure/kafka/coupon-issue-request.consumer.ts:186-214 | Skipped exactly when malformed; otherwise the first try that goes through is the one that takes effect and its user has a row; given up on exactly when all maxDeliveryAttempts tries fail, and then nothing changed |
| RequestConsumer.CouponIssueRequestConsumer.EachBatch | apps/server-c/src/infrastructure/kafka/coupon-issue-request.consumer.ts:145-164 | Exactly as many records as fetch, throttle and stop allow are delivered in order; only those are resolved; the tables are the reference run over what went through, and whoever's record did has a row |
| RequestConsumer.NothingIsLostAndLittleRepeated | apps/server-c/src/infrastructure/kafka/coupon-issue-request.consumer.ts:137-165 | Over any records, batches, stops and crashes: first deliveries are in offset order without a gap, everything below the committed offset was delivered, and each crash costs at most threshold redeliveries |
| RequestConsumer.ABatchIsItsRecords | apps/server-c/src/infrastructure/kafka/coupon-issue-request.consumer.ts:145-164 | Where batches end makes no difference to offsets and deliveries |
| RequestConsumer.CrashFreeIsExactlyOnce | apps/server-c/src/infrastructure/kafka/coupon-issue-request.consumer.ts:145-164 | Without a crash every record is delivered exactly once, in order |
| RequestConsumer.ACrashCanCostTheWholeThreshold | apps/server-c/src/infrastructure/kafka/coupon-issue-request.consumer.ts:159-160 | The bound is met: one crash can cost all of the threshold |
| RequestConsumer.RedeliveriesLeaveNoTrace | apps/server-c/src/infrastructure/kafka/coupon-issue-request.consumer.ts:196-213 | However often records are delivered, skipped or given up on in between, the tables are as if of each record only the first delivery that went through had been made; a try that threw although its commit went through counts as a delivery that went through |
| ResultConsumer.RetryCompletes | apps/server-b/src/infrastructure/kafka/coupon-issue-result.consumer.ts:154-162 | A markResult repeated after a partial failure comes to what the longer of the two would alone |
| ResultConsumer.CouponIssueResultConsumer.Deliver | apps/server-b/src/infrastructure/kafka/coupon-issue-result.consumer.ts:144-177 | Skipped exactly when malformed; processed means Redis is as one complete markResult leaves it, whatever earlier tries left half done; given up means Redis is as its longest try left it |
| ResultConsumer.WhatAResultWrites | apps/server-b/src/infrastructure/kafka/coupon-issue-result.consumer.ts:199-213 | A complete delivery writes SUCCESS, SOLD_OUT or FAILED for the three words, the code when there is one, and takes the entry off the set |
| ResultConsumer.CouponIssueResultConsumer.EachBatch | apps/server-b/src/infrastructure/kafka/coupon-issue-result.consumer.ts:113-130 | Every record delivered is committed at once, and Redis is what the delivered records, in order and as far as each got, make of it |
| ResultConsumer.WithoutGiveUpsAllAreApplied | apps/server-b/src/infrastructure/kafka/coupon-issue-result.consumer.ts:113-130 | Without give-ups that is the well-formed results applied one after the other |
| ResultConsumer.RedeliveredResultIsHarmless | apps/server-b/src/infrastructure/kafka/coupon-issue-result.consumer.ts:156-161 | A result that comes again, however much later, changes nothing while its key has one outcome |
| OutboxPoller.OutboxPoller.Poll | apps/server-c/src/application/outbox.poller.ts:53-66 | A tick during a poll does nothing; any other is one poll |
| OutboxPoller.OutboxPoller.PublishPending | apps/server-c/src/application/outbox.poller.ts:68-91 | The batch is sent in order and exactly the confirmed records are marked; everything else in the tables stays |
| OutboxPoller.WhatABatchSends | apps/server-c/src/application/outbox.poller.ts:74-86 | The payloads of a batch reach the topic in its order, exactly those whose send did not fail outright |
| OutboxPoller.WhatIsConfirmed | apps/server-c/src/application/outbox.poller.ts:74-78 | Confirmed are exactly the ids of the batch whose send was |
| OutboxPoller.PollShrinksPending | apps/server-c/src/infrastructure/persistence/typeorm-outbox-event.repository.ts:47-58 | After one poll exactly what was confirmed and marked is no longer pending |
| OutboxPoller.FailureFreePollsDrain | apps/server-c/src/application/outbox.poller.ts:68-91 | Each failure-free poll with nothing new takes batchSize pending records off, or all that are left |
| OutboxPoller.DrainedAfterCeilPolls | apps/server-c/src/infrastructure/persistence/typeorm-outbox-event.repository.ts:32-45 | n pending records are drained after ceil(n / batchSize) failure-free polls and not one sooner |
| OutboxPoller.PollsLoseNothingAndRepeatLittle | apps/server-c/src/application/outbox.poller.ts:74-90 | Whatever fails and whatever is appended during and between the polls: no record is lost, what is not pending any more is on the topic, and beyond one message per record marked there are at most batchSize for each poll that died before its mark or was wrongly told a send failed |
| OutboxFairness.ReadWhenFewAreOlder | apps/server-c/src/infrastructure/persistence/typeorm-outbox-event.repository.ts:32-37 | A pending record is read when fewer than batchSize others are not younger, and only when fewer than batchSize are older |
| OutboxFairness.EveryRecordIsReached | apps/server-c/src/infrastructure/persistence/typeorm-outbox-event.repository.ts:32-37 | With r records not younger than it, pending or coming into the table late, f of which keep failing and f below the batch size, at most (r - f) / (batchSize - f) polls that come to their mark pass a record over |
| OutboxFairness.FailingRecordsStarve | apps/server-c/src/application/outbox.poller.ts:74-86 | batchSize older records that are never confirmed keep a record from being read for good |
| RedisKeys.WhatReadsAs | apps/server-b/src/infrastructure/redis/redis-pending-issue.store.ts:207-213 | The texts that read as a number are exactly: a sign that fits, any zeros, and the print of its magnitude |
| RedisKeys.ParsePrint | apps/server-b/src/infrastructure/redis/redis-pending-issue.store.ts:207-213 | Every number parses back from its print, negative ones included |
| RedisKeys.MemberReadsBack | apps/server-b/src/infrastructure/redis/redis-keys.ts:13-15 | Every set member reads back as the pair it was written for |
| RedisKeys.KeysAreInjective | apps/server-b/src/infrastructure/redis/redis-keys.ts:4-16 | Two applications never share a member or a hash key, and no hash key is the set's |
| RedisKeys.AvailabilityKeysAreInjective | apps/server-c/src/infrastructure/redis/redis-keys.ts:12-19 | One sold-out key per event and coupon type |
| RedisKeys.KnownKeys | apps/server-b/src/infrastructure/redis/redis-keys.ts:4-16 | The member, hash, set and sold-out keys of an example, character by character |
| RedisKeys.SomeMembersAreNotCanonical | apps/server-b/src/infrastructure/redis/redis-pending-issue.store.ts:145-152 | A member can parse without being what the store writes |
| RedisKeys.TextReadsBack | apps/server-b/src/infrastructure/redis/redis-pending-issue.store.ts:155-201 | An entry can be read from its text exactly when it can from its values, and means the same |
| RedisKeys.RebuiltFromTextIsTheFirst | apps/server-b/src/application/pending-issue.scheduler.ts:165-172 | From the first message through member, hash and text, the rebuilt message is the first one |
| LocalDateTime.PartOrderIsTimeOrder | libs/common/src/api/local-date-time.ts:18-25 | Comparing two dates part by part is comparing instants; different parts are different instants |
| LocalDateTime.KnownInstants | libs/common/src/api/local-date-time.ts:8-10 | The instants the model gives three dates: the epoch, the first of March 2000 and the moment of the example |
| LocalDateTime.DaysBeforeYearClosed | libs/common/src/api/local-date-time.ts:19-21 | The days before a year, counted year by year, are 365 a year and one for each leap year before it |
| LocalDateTime.LocalText | libs/common/src/api/local-date-time.ts:27-34 | The zone-less text is the sixteen characters to the minute and then only what is not zero |
| LocalDateTime.InstantText | libs/common/src/api/local-date-time.ts:52-55 | The Z text drops exactly the milliseconds that are zero |
| LocalDateTime.KnownTexts | libs/common/src/api/local-date-time.ts:8-10 | The three examples of the zone-less form, and the same with Z, character by character |
| LocalDateTime.LocalReadsBack | libs/common/src/api/local-date-time.ts:18-35 | A parser undoes the zone-less printer, whatever it left out |
| LocalDateTime.InstantReadsBack | libs/common/src/api/local-date-time.ts:52-55 | A parser undoes the Z printer |
| LocalDateTime.PrintersAreInjective | libs/common/src/api/local-date-time.ts:18-55 | Different instants never print the same, in either form |
| LocalDateTime.LocalTextsSortByTime | libs/common/src/api/local-date-time.ts:18-35 | Zone-less texts compare as strings exactly as their instants do |
| LocalDateTime.InstantTextsSortExceptAtFullSeconds | libs/common/src/api/local-date-time.ts:52-55 | Z texts compare as their instants except exactly when both are in one second and only one is at its start |
| LocalDateTime.InstantTextsAreDateTimes | libs/common/src/api/local-date-time.ts:52-55 | Every Z text is a date-time of section 5.6 of RFC 3339 |
| LocalDateTime.LocalTextsAreNoDateTimes | libs/common/src/api/local-date-time.ts:18-35 | No zone-less text is one |

## Left out

- SystemTheorems.NeverGivenUpMeansExact: one direction only, because a later result message can repair a key that was given up; which steps break and keep agreement is settled by GiveUpRace.OnlyAGiveUpBreaksAgreement.
- SweepFairness.SweepIsARound: the sweep runs in one go, as the class does alone; with other work between its commands it is RunFairness.SweepWithOthersIsARound.
- SweepFairness.SweepsReachEveryEntry: likewise; the whole system is in RunFairness.EverySweptEntryIsReached.
- OutboxPoller.OutboxPoller.PublishPending: holds for any batch of pending records; that the oldest come first is used in OutboxFairness. It is one method, so rows appended while it runs are in PollsLoseNothingAndRepeatLittle instead.
- Recovery.GivesUpByThen: the bound for n visits; how many visits there are depends on how many are cut, which nothing limits.
- Gap locks, shared locks of failed inserts and foreign keys of the database: a foreign key violation is an abort like any other.
- Errors that reach the caller although the commit went through, for an issue: modelled as a crash after the commit, and in RequestConsumer.RedeliveriesLeaveNoTrace as a further delivery, not inside the consumer class.
- Expiry of Redis hashes and of the sold-out key, restock and a second instance of server-b: outside what the code guarantees.
- Partitions and the assignment of consumers: each topic is one log.
- JSON, Kafka, Redis and MySQL themselves: a message is its payload, a command is atomic, a table is a sequence.
- Numbers beyond JavaScript's safe integers, and texts in a hash that its writers never wrote, other than a malformed attempt count.
- Circuit breaker and retries of server-a's client: its call is one answer of server-b; messages of answers and request ids of the log.
- Connecting, reconnecting and shutting down; metrics, health, controllers, configuration and the event cache.

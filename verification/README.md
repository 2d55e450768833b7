# Verification of the restaurant messaging backend

This project models the parts of the backend whose correctness depends on state
that several parties change: rate limiting, the customer dialog, tenant
isolation in Postgres, stored passwords, the in-memory Redis, inbound message
handling, and a few smaller state machines. Everything that updates state in
place is a class or a loop proved against a specification function; everything
else is a function. The theorems are then about whole runs of those functions.

| modules | what they are about |
|---|---|
| `SlidingWindow`, `PerKey` | what a sliding-window limit promises, for any implementation; state kept per key |
| `MemoryRateLimiter`, `RedisRateLimiter` | the two limiters, proved against it and against each other |
| `IikoWebhook` | the debounce of sync jobs, which turns out to be the same limiter with limit one |
| `Dialog`, `DialogSafety`, `DialogModes`, `DialogRuns`, `DialogEffects` | one customer's dialog as a transition system: the durable row, its Redis copy, concurrent messages, operators and other writers; what always holds, which modes last, runs that reach each failure, and the effect of a message nobody interferes with |
| `OrderConfirmation` | the payment step, the confirmation step and the gate between them |
| `Inbound` | deduplication, retries, the inbound log, the per-chat queue |
| `TenantRls`, `TenantIsolation`, `TenantHistory` | the row policy with SQL NULL semantics, transaction-local settings, noninterference, and a reference that says what every statement answers |
| `Text`, `Base64`, `Passwords` | the password record, printed and parsed |
| `MemoryRedis` | `InMemoryRedis` and its pipeline against what Redis documents |
| `VoiceStream`, `OrderedDict`, `PipelineTiming`, `MessageAccounting` | stream buffering, the stopwatch, the accounting rollup |

## What the proofs show about the code

Where the code and its comments or evident intent disagree, the model follows
the code; the members named below state each point.

- **The Redis limiter is stricter than the in-memory one, except in a burst.**
  It also counts the calls it refuses (`RedisAdmitsIff`), so its admissions are
  a subset (`RedisVersusMemory`). But its members are `str(now)`, and calls at
  one instant collapse: with a limit of two or more all of them are admitted,
  and the window overflows as soon as the burst is longer than the limit
  (`BurstSafeIff`; for runs that repeat times in any way, `RedisSafeIff`).
- **The guarded write never loses to a takeover; the unguarded ones do.**
  `TakeoverWins` covers the guarded write. The transition of the payment and
  confirmation handlers is decided by what its check finds and overwrites
  whatever the row says (`TransitionOverwritesIff`): even a takeover that was
  complete in the row and in Redis before the check, because the table allows
  the way from `human_mode` to `chatting` (`TakeoverLostInPayment`, a run of
  thirteen moves). The two resumes overwrite what was written since they were
  decided in the same way (`ResumeOverwritesIff`). These are all the ways a
  message ends human mode (`StateChangesIff`).
- **A message can drop its own answer.** The re-entry syncs and the stale-cart
  reset bump the session version that the message read earlier, so the LLM is
  called and its answer thrown away (`OwnWriteDropsAnswer`, with the exact
  condition, and `OwnWriteDropped`, with a run; in general `RoutedIff`).
- **The Redis copy leads the database on three paths**: clearing a pending
  order, clearing a pending booking, and the quick reply that calls an operator
  (`CacheNeverLeads` for all other steps, `RedisAloneAgreesIff` for these, and
  `EscalationLeads` and `BookingLeads` for runs in which they do).
- **Clearing a pending order may bring its key back.** The key is dropped first
  and the row updated last; when the state key was missing in between, looking
  the state up restores the order key from the row (`ClearingLeads`).
- **An answer that clears the order leaves the row waiting for an answer.** A
  "no", a "yes" that confirms, and every not-found reply (`ClearsIff`) reset the
  state in Redis only. The row stays in `awaiting_order_payment` or
  `confirming_order`, so every later LLM answer of that customer is found stale
  and dropped until somebody else writes the state (`ClearingStrands`, from the
  arrival of the answer on).
- **The payment step can ask for a confirmation the gate refuses**: with no
  order type (`NoOrderTypeIsRefused`; exactly when: `YesAfterPayment`).
- **"Confirmed" can be announced for an order that is not**: when the row has no
  items and is no longer a draft (`AnnouncementTrueIff`).
- **A finished message is accepted again** once its claim is more than fifteen
  minutes old and its done key, if there is one, has expired (`FinishedAgainIff`),
  although the documentation of `try_start_whatsapp_inbound_in_db` says that a
  processed duplicate is refused.
- `InMemoryRedis` ignores expiry, its `delete` leaves sets alone, and a pipeline
  keeps its commands after `execute`: see the contracts of `Set`, `Delete` and
  `Execute`.

## Assumptions

Time is `real` (an `int` in the dialog, where only comparisons matter). The
limiter's in-memory body runs under a lock without awaiting, so its times never
decrease; wall-clock times are not negative, and windows are positive. A Redis
pipeline is one transaction, and the server's clock is the client's. A session
write is one atomic step, as its `UPDATE ... WHERE` on the expected state and
version is. PBKDF2 is an arbitrary function. What `route_intent`, the menu, the
LLM and operators do is an arbitrary choice at each step.
`app/integrations/redis_client.py` does not exist at this commit, so the iiko
webhook never has a Redis client and nothing is debounced; whether there is one
is a parameter of `Endpoint.Handle`.

## Model

| member | source | states |
|---|---|---|
| SlidingWindow.GreedyIsSafe | app/core/rate_limiter.py:43-62 | A limiter that admits a call exactly when fewer than `limit` admitted calls lie in its window keeps every window (s-W, s], for every real s, within the limit |
| SlidingWindow.SafeIff | app/core/rate_limiter.py:43-96 | Any answers, greedy or not, keep every window within the limit exactly when no admission is one too many in the window that ends at it |
| SlidingWindow.RefusedCallIsCovered | app/core/rate_limiter.py:50-58 | The exchange step: in the window of a refused call no choice that respects the limit has more calls than the limiter admitted there |
| SlidingWindow.GreedyDominates | app/core/rate_limiter.py:43-62 | On every prefix, no choice of calls that respects the limit in every window has admitted more than the greedy one |
| SlidingWindow.GreedyIsEarliest | app/core/rate_limiter.py:43-62 | The j-th greedy admission is never later than the j-th call of any such choice |
| SlidingWindow.GreedyIsUnique | app/core/rate_limiter.py:43-62 | The rule fixes the answers: two answer sequences that obey it are equal |
| PerKey.KeyProjection | app/core/rate_limiter.py:18-62 | Under any interleaving of keys, the state of a key is that of the run holding only its own events |
| MemoryRateLimiter.Limiter.CheckWindow | app/core/rate_limiter.py:43-62 | Adds the call to the history; the answer is the one the earlier calls of the same key alone determine; the store stays the one the history determines |
| MemoryRateLimiter.PruningLosesNothing | app/core/rate_limiter.py:48 | At every call the pruned list and the complete history of admissions filter to the same times |
| MemoryRateLimiter.PruningRefinesHistory | app/core/rate_limiter.py:48 | The stored list is exactly the complete history filtered at the last call |
| MemoryRateLimiter.AnswerFromHistory | app/core/rate_limiter.py:48-61 | Each decision equals the one taken by filtering the complete admission history |
| MemoryRateLimiter.HistoryCounts | app/core/rate_limiter.py:48-50 | Filtering the complete history counts the admitted calls of the window |
| MemoryRateLimiter.OwnAnswer | app/core/rate_limiter.py:43-62 | What the class answers on a key is the answer of the one-key run, whatever happened under other keys |
| MemoryRateLimiter.MemoryIsGreedy | app/core/rate_limiter.py:43-62 | For non-decreasing times the answers of the pruned list obey the greedy rule |
| MemoryRateLimiter.MemoryIsOptimal | app/core/rate_limiter.py:43-62 | They are safe in every window, admit at least as much as any safe choice on every prefix, and their j-th admission is never later |
| MemoryRateLimiter.StoredListBounded | app/core/rate_limiter.py:45-62 | The stored list is sorted, lies in the window of the last call and is no longer than the limit |
| RedisRateLimiter.Limiter.CheckWindow | app/core/rate_limiter.py:69-99 | The set after a call, the answer from the count between removal and insertion, and admission on any error, whether or not the pipeline had run |
| RedisRateLimiter.Replay | app/core/rate_limiter.py:69-96 | Driven over a list of times on one key without faults, the class gives the answers the lemmas are about |
| RedisRateLimiter.KeptIsRecent | app/core/rate_limiter.py:77-81 | At a call the set holds exactly the distinct earlier times of its window: neither the removals nor the expiry at W+5 ever changes a decision |
| RedisRateLimiter.RedisDecides | app/core/rate_limiter.py:77-96 | A call is admitted exactly when fewer than `limit` distinct earlier times, admitted or refused, lie in its window |
| RedisRateLimiter.RedisCountsEveryCall | app/core/rate_limiter.py:77-96 | With increasing times, or with limit one: exactly when fewer than `limit` earlier calls, admitted or not, lie in the window |
| RedisRateLimiter.RedisAdmitsIff | app/core/rate_limiter.py:77-96 | In closed form: exactly when the call `limit` places earlier has left the window |
| RedisRateLimiter.RedisWithinMemory | app/core/rate_limiter.py:43-96 | Every Redis admission is a greedy admission, and the two agree up to and including the first refusal |
| RedisRateLimiter.RedisVersusMemory | app/core/rate_limiter.py:43-96 | The same for the two implementations on the same times, increasing or with limit one; the Redis form is then safe in every window |
| RedisRateLimiter.BurstAtOneInstant | app/core/rate_limiter.py:80 | In a burst at one instant everything is admitted when the limit is at least two |
| RedisRateLimiter.BurstSafeIff | app/core/rate_limiter.py:77-96 | A burst keeps every window within the limit exactly when the limit is one or the burst is no longer than the limit |
| RedisRateLimiter.RedisSafeIff | app/core/rate_limiter.py:77-96 | For any sorted run, read off the times alone: every window is within the limit exactly when no call with fewer than `limit` distinct earlier times in its window has `limit` such calls before it there |
| IikoWebhook.Endpoint.DebounceCheck | app/api/iiko_webhook.py:145-156 | True exactly when the key still holds; the check joins the history, an error counts as not debounced and leaves the key |
| IikoWebhook.Endpoint.VisitOne | app/api/iiko_webhook.py:104-121 | One organization and kind: queued exactly when not debounced, or whenever there is no client; a failed enqueue is queued in the background |
| IikoWebhook.Endpoint.VisitOrg | app/api/iiko_webhook.py:101-139 | The stop list first, then the menu, each if the event asks for it |
| IikoWebhook.Endpoint.Handle | app/api/iiko_webhook.py:88-142 | Over all organizations: the checks made, in order, and exactly the syncs queued |
| IikoWebhook.ChecksAre | app/api/iiko_webhook.py:98-127 | Which checks an event asks for: one stop list per organization, one menu, both with the stop list first, or none |
| IikoWebhook.QueuedAre | app/api/iiko_webhook.py:108-139 | A check that passed queues one entry of its organization and kind, in the background exactly when the job queue refused it |
| IikoWebhook.FaultPasses | app/api/iiko_webhook.py:154-156 | An error from Redis passes and leaves the key as it was |
| IikoWebhook.QueuedSplit | app/api/iiko_webhook.py:101-139 | What a longer run queues continues what the shorter one queued |
| IikoWebhook.OneKeyPassed | app/api/iiko_webhook.py:145-156 | What the endpoint decides on a key is the decision of the one-key run |
| IikoWebhook.DeadlineIsLast | app/api/iiko_webhook.py:151-153 | The key expires ttl after the last queued event, and is unset before any |
| IikoWebhook.DebounceIsGreedy | app/api/iiko_webhook.py:145-156 | Debouncing obeys the sliding-window rule with limit one |
| IikoWebhook.DebounceIsMemoryLimiter | app/api/iiko_webhook.py:145-156 | Its decisions coincide with the in-memory rate limiter at limit one |
| IikoWebhook.DebounceSpacing | app/api/iiko_webhook.py:98-139 | Two queued syncs of a key are at least ttl apart, and every dropped event has a queued one of its key less than ttl before it |
| MemoryRedis.RangeIsRedisRange | app/db/session.py:146-150 | The Python slices give the Redis range, ends inclusive, for every pair of integers |
| MemoryRedis.RangeUnique | app/db/session.py:146-150 | The documented range determines the result |
| MemoryRedis.InMemoryRedis.Get | app/db/session.py:109-110 | The stored value, or none |
| MemoryRedis.InMemoryRedis.Set | app/db/session.py:112-122 | With NX an existing key is kept and none is returned; the expiry is ignored |
| MemoryRedis.InMemoryRedis.SAdd | app/db/session.py:127-132 | The union; the reply is the growth of the set |
| MemoryRedis.InMemoryRedis.SRem | app/db/session.py:137-144 | The difference; the reply is the shrinkage; other sets keep their members |
| MemoryRedis.InMemoryRedis.LRange | app/db/session.py:146-150 | Returns the Redis range of the list |
| MemoryRedis.InMemoryRedis.LLen | app/db/session.py:164-165 | The length, zero for a missing key |
| MemoryRedis.InMemoryRedis.RPush | app/db/session.py:152-156 | Appends, creating the list, and replies its length |
| MemoryRedis.InMemoryRedis.LPop | app/db/session.py:158-162 | Takes the first element, or none and no change |
| MemoryRedis.InMemoryRedis.LTrim | app/db/session.py:176-178 | Keeps the Redis range of an existing list |
| MemoryRedis.InMemoryRedis.Delete | app/db/session.py:183-185 | Removes the list and the plain value of the name; a set of that name survives |
| MemoryRedis.InMemoryPipeline.Push | app/db/session.py:206-216 | Queues a command |
| MemoryRedis.InMemoryPipeline.Execute | app/db/session.py:218-224 | Applies the queued commands in order, one reply each, and keeps them queued |
| MemoryRedis.TrimKeepsLast | app/db/session.py:176-178 | Trimming to (-N, -1) with N at least 1 keeps exactly the last N elements |
| MemoryRedis.AppendToHistory | app/services/dialog_mgr.py:592-618 | One message more, the last N kept, other lists untouched |
| MemoryRedis.HistoryIsLastMessages | app/services/dialog_mgr.py:592-618 | Keeping the last N after each append keeps the last N of all |
| MemoryRedis.AppendAll | app/services/dialog_mgr.py:592-618 | Over any run of appends the history is the last N messages ever appended |
| MemoryRedis.RunQueue | app/db/session.py:152-162 | With pushes and pops only, popped followed by remaining equals pushed |
| MemoryRedis.RunSet | app/db/session.py:127-144 | The SADD replies minus the SREM replies are the size of the set, and its members are those of the operations |
| VoiceStream.Stream.MaybeFlush | app/api/webhooks.py:3054-3068 | Loses no byte; flushes exactly when no flush is under way, the caller is known and the buffer is non-empty and forced or long enough |
| VoiceStream.Stream.OnMedia | app/api/webhooks.py:3091-3100 | Adds the decoded payload and leaves less than the threshold buffered |
| VoiceStream.Stream.Run | app/api/webhooks.py:3077-3107 | For every frame sequence that ends: the chunks concatenated are all decoded payloads in order, every chunk but the last reaches the threshold, none is empty, and an unidentified call flushes nothing |
| OrderedDict.PutDistinct | app/api/superadmin.py:857-867 | A dictionary keeps one entry per key |
| PipelineTiming.Round2Bound | app/core/pipeline_timing.py:25 | Rounding to two decimals moves a duration by at most 0.005 ms |
| PipelineTiming.PipelineStopwatch.Split | app/core/pipeline_timing.py:22-26 | Records the rounded duration under the stage and restarts the clock |
| PipelineTiming.RecordsRoundTrue | app/core/pipeline_timing.py:22-26 | After any splits the dictionary is the dictionary of true durations, each rounded once |
| PipelineTiming.TrueWithinElapsed | app/core/pipeline_timing.py:22-26 | Under a clock that never goes back the stored true durations never exceed the elapsed time |
| PipelineTiming.TrueIsElapsed | app/core/pipeline_timing.py:22-26 | With distinct names they are the elapsed time |
| PipelineTiming.DistinctStages | app/core/pipeline_timing.py:18-26 | After n splits with distinct names the recorded sum differs from elapsed time by at most 0.005 n, whatever the clock does |
| PipelineTiming.RepeatedStages | app/core/pipeline_timing.py:18-26 | With repeated names and a monotone clock it exceeds elapsed time by at most 0.005 per stored stage |
| MessageAccounting.Aggregate | app/api/superadmin.py:856-892 | Lists exactly the organizations of the rows, each once and under a name of its rows; its inbound, outbound and per-source counts are the sums of its own rows of that kind, and the grand totals match the input |
| MessageAccounting.NoOtherOrg | app/api/superadmin.py:865-867 | No organization without a row is listed, and each carries a name its rows give it |
| MessageAccounting.StepTotals | app/api/superadmin.py:865-881 | One row moves every count by exactly what it contributes to that column |
| MessageAccounting.TotalsConserved | app/api/superadmin.py:856-892 | After any prefix every count, of one organization or of all, equals the sum of its rows |
| MessageAccounting.OrgsDistinct | app/api/superadmin.py:857-867 | Organizations stay distinct |
| MessageAccounting.EveryOrgListed | app/api/superadmin.py:865-866 | Every organization with a row is listed |
| MessageAccounting.TotalsPermuted | app/api/superadmin.py:856-892 | No total depends on the order of the rows |
| Text.IntRoundTrip | app/core/passwords.py:27-39 | `int(str(i))` is i, for every integer the interpreter will convert |
| Text.SplitHead | app/core/passwords.py:36 | Splitting at the first separator recovers the first field |
| Text.SplitCounts | app/core/passwords.py:35-37 | A split has one part more than there are separators, no part holds one, and joined again the parts are the text |
| Text.StripSplits | app/api/webhooks.py:960-962 | Every text is its strip between blanks, and the strip has none at its ends |
| Text.ParseIntIff | app/core/passwords.py:38-41 | Which texts are integers: between blanks and after a sign, groups of digits with single underscores between them, at most 4300 digits; and their value |
| Base64.RoundTrip | app/core/passwords.py:25-42 | Decoding what was encoded gives the bytes back, for every byte string |
| Base64.Alphabet | app/core/passwords.py:25-28 | The sixty-four characters by code |
| Base64.DecodeSkips | app/core/passwords.py:44-46 | The decoder skips foreign characters wherever they stand |
| Base64.Unfinished | app/core/passwords.py:44-48 | A last group that lacks a character or its padding is an error |
| Base64.EncodeAlphabet | app/core/passwords.py:25-28 | The encoder writes ASCII and never the field separator |
| Passwords.PrintedFields | app/core/passwords.py:28-36 | A printed record splits into its four fields |
| Passwords.RecordRoundTrip | app/core/passwords.py:10-44 | Parsing what was printed recovers iterations, salt and digest exactly |
| Passwords.VerifyAfterHash | app/core/passwords.py:10-50 | Against a fresh record exactly the non-empty passwords with the same derived key are accepted, the password itself among them if it is non-empty; nothing raises |
| Passwords.HashProduced | app/core/passwords.py:10-28 | A hash is produced exactly for counts from 1 to 2^63-1, the default among them, and a non-empty password verifies against its own |
| Passwords.StoredText | app/core/passwords.py:22-28 | The stored text, part by part |
| Passwords.ForeignIsRejected | app/core/passwords.py:33-37 | An empty password or record, another scheme, or a number of separators other than three is rejected |
| Passwords.BadFields | app/core/passwords.py:38-50 | A count that is no integer or text that is no base64, or not ASCII, is rejected; verification raises exactly for an integer outside the range |
| Passwords.PrintInjective | app/core/passwords.py:25-28 | Distinct records print differently |
| TenantRls.Task.SetContext | app/db/tenant_rls.py:20-22 | Sets the tenant and returns the previous one as token |
| TenantRls.Task.SetBypass | app/db/tenant_rls.py:25-27 | Sets the flag and returns the previous one as token |
| TenantRls.Task.ResetContext | app/db/tenant_rls.py:30-31 | Restores the tenant of the token |
| TenantRls.Task.ResetBypass | app/db/tenant_rls.py:34-35 | Restores the flag of the token |
| TenantRls.Task.Apply | app/db/tenant_rls.py:46-62 | On Postgres writes the bypass or else the tenant into the transaction's settings; elsewhere nothing |
| TenantRls.Task.Request | app/middleware/tenant_rls.py:12-28 | The handler, whatever it sets and wherever it raises, starts under its tenant, or under the bypass outside the admin API; afterwards the variable the middleware set is what it was |
| TenantRls.PrintedOrg | app/db/tenant_rls.py:57-62 | The policy's cast reads back the organization the application printed |
| TenantRls.BadSetting | alembic/versions/20260609_tenant_rls.py:34-36 | A setting that is no four-byte integer shows no row |
| TenantRls.BoundSeesOwn | alembic/versions/20260609_tenant_rls.py:31-42 | Bound to a tenant and not bypassing, exactly the rows of that tenant pass; rows without one pass for nobody |
| TenantRls.BlindStep | app/db/tenant_rls.py:46-62 | The end of a transaction makes a session blind, and no step but applying the settings changes that |
| TenantRls.UnboundIsBlind | app/db/session.py:80-89 | Over every run, whatever other sessions do: from its start, or from the end of a transaction, until it applies the settings again, a session sees nothing and changes nothing |
| TenantRls.BypassLastsForTheTransaction | app/db/tenant_rls.py:52-62 | A bypass outlives switching the flag off and binding a tenant, until the transaction ends |
| TenantIsolation.SeesOwn | alembic/versions/20260609_tenant_rls.py:31-37 | A session that keeps to its tenant sees only ids handed out to it |
| TenantIsolation.StepTidy | alembic/versions/20260609_tenant_rls.py:31-42 | Every step keeps rows under the tenant their id was handed out to, committed or not |
| TenantIsolation.OwnStep | alembic/versions/20260609_tenant_rls.py:31-42 | A tenant's step gives the same output and effect on two databases the tenant cannot tell apart |
| TenantIsolation.OtherStep | alembic/versions/20260609_tenant_rls.py:38-42 | Another tenant's step does not show |
| TenantIsolation.Simulation | app/db/tenant_rls.py:46-62 | A run and its erasure to one tenant stay indistinguishable to that tenant, step by step |
| TenantIsolation.Noninterference | app/db/tenant_rls.py:46-62 | In every interleaving of transactions, a tenant's query results and its rows equal those of the run without all other tenants' steps |
| TenantHistory.RunMirrors | alembic/versions/20260609_tenant_rls.py:31-42 | In every run of any sessions each statement answers as a reference of scopes and private views does, and the committed rows are the reference's |
| TenantHistory.SelectsOwnRows | alembic/versions/20260609_tenant_rls.py:31-37 | Without changes of its own a session bound to a tenant is shown exactly the rows of that tenant, a bypassing one every row |
| TenantHistory.FirstSelect | app/db/tenant_rls.py:46-62 | The same from the start: bind or bypass, apply, select |
| TenantHistory.CommitPublishes | app/db/session.py:80-89 | Over every run, after an accepted insert, update or delete and its commit every session bound to a tenant is shown what was written, if it is a row of its tenant, until another commit changes it |
| TenantHistory.PendingIsPrivate | app/db/session.py:80-89 | Before the commit only the writer is shown it |
| TenantHistory.RollbackForgets | app/db/session.py:80-89 | After a rollback nobody is |
| OrderConfirmation.OrderRow.HandlePaymentChoice | app/api/webhooks.py:1029-1089 | The edited row and the outcome of the payment step, on every shape of the row |
| OrderConfirmation.OrderRow.HandleYes | app/api/webhooks.py:740-807 | The row and the outcome of a "yes", on every shape of the row |
| OrderConfirmation.ConfirmedIffReady | app/api/webhooks.py:740-807 | A draft becomes confirmed exactly on a "yes" with named items, an order type, an address for delivery, a time for pickup, a payment method unless in the hall, enforced prepayment settled, a valid cart at both checks and a bookable table |
| OrderConfirmation.CartReadyIff | app/services/order_confirm_gate.py:41-97 | A cart is ready exactly when it names food, all of it with a menu id, nothing unknown or stopped and something valid |
| OrderConfirmation.PaymentRecords | app/api/webhooks.py:1034-1073 | What the payment step leaves in the row, for every shape of it, and exactly when it finds no draft, fails, or asks for an address or a time |
| OrderConfirmation.AnswersChangeStatusOnly | app/api/webhooks.py:740-874 | Answers change nothing but the status: a "no" cancels a draft, another word changes nothing, a "yes" only confirms |
| OrderConfirmation.PrepaymentGate | app/api/webhooks.py:786-1080 | Under enforced required prepayment both steps hold an order that passes the rest exactly as long as its status, blanks and capitals aside, is neither paid nor waived |
| OrderConfirmation.PrepaymentByStatus | app/api/webhooks.py:786-1080 | The same spelled out for the statuses that occur |
| OrderConfirmation.AnnouncementTrueIff | app/api/webhooks.py:799-842 | An announced confirmation is true unless the row had no items and was neither draft nor confirmed |
| OrderConfirmation.AnnouncedThoughCancelled | app/api/webhooks.py:742-842 | The exception is real: a cancelled order without items is announced as confirmed |
| OrderConfirmation.YesAfterPayment | app/api/webhooks.py:954-1089 | A "yes" right after the payment step asked for it is never sent back for fulfilment nor held for prepayment; it is refused exactly for a missing order type or a cart that no longer holds up |
| OrderConfirmation.NoOrderTypeIsRefused | app/services/order_confirm_gate.py:100-111 | The gap is real: without an order type the question is asked and the answer refused |
| OrderConfirmation.HoldAgrees | app/api/webhooks.py:786-797 | A hold at the payment step is a refusal at the confirmation step under the same data |
| OrderConfirmation.ConfirmedByReadyYes | app/api/webhooks.py:716-874 | In every run of chat steps and edits by others, a confirmed order was confirmed by a "yes" at which every requirement held |
| DialogSafety.RefusedTransitions | app/services/conversation_state.py:32-96 | The transitions the table refuses, pair by pair; all others are allowed |
| DialogSafety.CompareAndSet | app/services/dialog_mgr.py:142-257 | The session write in full: it goes through exactly when the row is as expected, then writes the patch and counts the version up by one; otherwise, or with nothing to write, it changes nothing |
| DialogSafety.SpentVersionFails | app/services/dialog_mgr.py:167-234 | In every run a session version that was written over is never current again: a later write that expects it is refused and changes nothing |
| DialogSafety.StepKeeps | app/api/webhooks.py:1731-2830 | Every step of a message keeps the row in step with the history of its writes and the message's version in step with its preflight |
| DialogSafety.RunOk | app/api/webhooks.py:1731-2830 | So does every run of messages, operators and other writers |
| DialogSafety.TakeoverWins | app/services/dialog_mgr.py:167-234 | In every run, a message overtaken since it read its version writes neither row nor cache at its guarded write |
| DialogSafety.TakeoverSeenIsDropped | app/api/webhooks.py:2579-2608 | In every run, if the change is visible at the re-read the message ends there: nothing is routed, written or sent |
| DialogSafety.DroppedIsNeverAnswered | app/api/webhooks.py:2594-2634 | Over whole runs no message is both dropped and routed or replied to |
| DialogSafety.DoneForever | app/api/webhooks.py:2631-2634 | A message that ended stays ended |
| DialogSafety.GuardedWriteNeedsChatting | app/api/webhooks.py:2658-2668 | Version known or not, the guarded write replaces nothing but the chatting state |
| DialogSafety.StateChangesIff | app/api/webhooks.py:1731-2830 | In every run, exactly when a step of a message changes the durable state: at a resume or a handler's transition that writes another state, or at a guarded write that nothing has overtaken |
| DialogSafety.TransitionOverwritesIff | app/services/dialog_mgr.py:260-313 | In every run, with anything happening between its check and its write, a handler's transition overwrites the row exactly when the table allows the way from the state its check found; a takeover it found itself is overwritten exactly when the way leads to chatting |
| DialogSafety.ResumeOverwritesIff | app/api/webhooks.py:1791-1846 | In every run a resume overwrites whatever was written since it was decided, and it was decided exactly by the deadline at the preflight, or by a new-conversation phrase in an unpaused human mode |
| DialogSafety.RoutedIff | app/api/webhooks.py:2579-2608 | In every run an answer is routed exactly when the durable state is chatting and no session write has committed since a preflight whose version is known |
| DialogSafety.OwnWriteDropsAnswer | app/api/webhooks.py:2015-2076 | In every run, a message that wrote the session itself on the way to the LLM drops its answer exactly when the version it read at the preflight is known, or the state is no longer chatting |
| DialogSafety.StepOwes | app/api/webhooks.py:1731-2830 | What a message is about to copy into Redis it has read from, or committed to, the database since it arrived |
| DialogSafety.CacheNeverLeads | app/api/webhooks.py:2785-2786 | In every run, for customers with and without a row, with a crash possible after any step, a message changes the cached state only to one the database has held since the message arrived, except on the three paths that write Redis alone |
| DialogSafety.RedisAloneAgreesIff | app/api/webhooks.py:1438-1473 | On the three paths the row and its history stay, and the copy agrees with the row afterwards exactly when the row already said what was written |
| DialogSafety.ClearingLeads | app/services/dialog_mgr.py:501-538 | Clearing a pending order leaves the durable state: the copy agrees afterwards exactly when the row already said what was put into Redis; and the order key is gone exactly when the state key was there or the row had no order |
| DialogModes.QuietStep | app/api/webhooks.py:1791-1972 | From human mode a quiet message's step leaves the session alone and calls neither the LLM nor a handler |
| DialogModes.HumanModePersists | app/api/webhooks.py:1791-1972 | Over every run of messages that arrive in human mode, or had gone to the LLM before it, without a phrase and before the deadline, or while paused, the session stays as it is and neither the LLM nor any handler runs |
| DialogModes.HumanStatePersists | app/api/webhooks.py:1731-2830 | Over every run the mode itself lasts with messages at any other point too, except those that may still resume the bot and those in, or on the way to, a payment or confirmation handler |
| DialogModes.MutedIsSilent | app/api/webhooks.py:1915-1972 | Whatever the state: over every run of messages that arrive while the AI is paused or snoozed neither the LLM nor any handler runs, nothing is routed, and the session stays as it is, except that a human mode under a mere snooze still runs out |
| DialogModes.ClearsIff | app/api/webhooks.py:716-1045 | Exactly which answers and outcomes the payment and confirmation handlers meet by clearing the order: a "no", a "yes" that confirms or finds nothing, a payment for no draft, and any answer without a pending order |
| DialogModes.ClosesThrough | app/api/webhooks.py:716-1045 | From any moment of such an answer, with the other messages at rest meanwhile: it gets through in a bounded number of its own steps, nothing is routed then or afterwards, and the row keeps its state |
| DialogModes.ClearingStrands | app/services/dialog_mgr.py:501-538 | From the arrival of such an answer, Redis miss or not, over every run of customer messages: the row never leaves the state it waits in, and no LLM answer is ever routed |
| DialogModes.StrandedForever | app/api/webhooks.py:2594-2631 | From any stranded world, over every run of customer messages, no LLM answer is ever routed |
| DialogRuns.TakeoverLostInPayment | app/api/webhooks.py:2015-2024 | For every paying customer nobody has taken over, a run from the start: a takeover complete in the row and in Redis while a message is in the payment handler, and the message then writes chatting over it |
| DialogRuns.OwnWriteDropped | app/api/webhooks.py:2015-2631 | For every such customer, a run with nobody else about in which an unrecognized payment answer calls the LLM and drops what it says |
| DialogRuns.EscalationLeads | app/api/webhooks.py:1438-1441 | For every chatting customer, a run in which the quick reply leaves Redis in human mode and the row chatting |
| DialogRuns.BookingLeads | app/services/dialog_mgr.py:561-565 | For every customer confirming a booking, a run in which clearing it leaves Redis chatting and the row where it was |
| DialogEffects.LimitedIsAnswered | app/api/webhooks.py:1755-1758 | A message over the rate limit is answered and changes nothing |
| DialogEffects.MissIsFilled | app/services/dialog_mgr.py:341-381 | A state missing in Redis is filled from the row, the pending order included |
| DialogEffects.OrderFromRow | app/services/dialog_mgr.py:459-468 | An order key missing in Redis is filled from the row before the handler goes on; with no order there either, any answer clears |
| DialogEffects.NewCustomer | app/api/webhooks.py:1881-1896 | A new customer has a row before anything is chosen |
| DialogEffects.AnswerIsExecuted | app/api/webhooks.py:2579-2792 | An LLM answer nobody overtakes: exactly what the row, Redis and the trace say afterwards, for every result of the routing |
| DialogEffects.ShortCutReplies | app/api/webhooks.py:2350-2377 | A short cut before the LLM only replies |
| DialogEffects.CancelClears | app/api/webhooks.py:1588-1618 | Cancelling everything clears the order in the row and in Redis |
| DialogEffects.StaleCartDropsAnswer | app/api/webhooks.py:1490-1532 | A stale cart is cleared on the way to the LLM, whose answer is then dropped |
| DialogEffects.AnswerMoves | app/api/webhooks.py:742-1089 | For every answer and outcome that moves the dialog on, the row and Redis say the state it moves to |
| DialogEffects.AnswerClears | app/api/webhooks.py:733-1045 | For every one that clears the order, the row keeps its state and loses the order |
| DialogEffects.AnswerStays | app/api/webhooks.py:786-797 | One that is held for prepayment is answered, one that fails is not, and neither writes |
| DialogEffects.OperatorIsAnnounced | app/api/webhooks.py:1812-1972 | In human mode the message is answered for the operator and Redis is brought up to the row |
| DialogEffects.ExpiredSnoozeIsCleared | app/api/webhooks.py:1785-1789 | A snooze that has run out, to the second, is cleared from the row and no longer silences |
| DialogEffects.DeadlineEndsMode | app/api/webhooks.py:1791-1810 | A human mode whose deadline has come, to the second, ends with the next message: row, deadline and Redis, and the message is then one for the bot |
| DialogEffects.PhraseEndsMode | app/api/webhooks.py:1816-1846 | So does one before its deadline on a new-conversation phrase, unless paused or snoozed |
| Inbound.ClaimHeld | app/services/whatsapp_idempotency.py:82-132 | Until it is failed or reclaimed, a claim keeps its time |
| Inbound.StartsSpaced | app/services/whatsapp_idempotency.py:109-127 | In every run two accepted starts of one message with no failure between them are more than fifteen minutes apart |
| Inbound.AcceptedIff | app/services/whatsapp_idempotency.py:82-132 | Over every run, which starts are accepted, on the events alone: one without an id; the first; and after an accepted one the next exactly when the last verdict since is a failure or more than 900 seconds have passed |
| Inbound.AttemptsCounted | app/services/whatsapp_idempotency.py:95-124 | A claim counts the starts that were accepted |
| Inbound.FinishedAgainIff | app/services/whatsapp_idempotency.py:17-127 | Over every run, a finished message is let in again exactly when its claim is more than fifteen minutes old and its done key, set by this finish or an earlier one, has expired; a key set by this finish expires fifteen minutes after it |
| Inbound.Store.SaveInbound | app/api/webhooks.py:500-544 | Adds a row unless the message has one; afterwards it has exactly one |
| Inbound.Store.ProcessItem | app/api/webhooks.py:1227-1284 | At most three passes, ending at the first success or after the third failure; the failed task on the failure path only, the done key at most, and only after a committed verdict, at most one inbound row per message |
| Inbound.KeyMeansDone | app/services/whatsapp_idempotency.py:37-54 | Over every run of starts and verdicts a done key stands for a committed verdict, expires fifteen minutes after it, and the row, if there is one, says done unless it was failed or claimed again since |
| Inbound.ChatQueue.Enqueue | app/services/chat_serializer.py:234-261 | Refuses a queued duplicate, drops the oldest when full, appends; everything accepted is what left followed by what waits |
| Inbound.ChatQueue.DrainNext | app/services/chat_serializer.py:263-278 | First in, first out |

## Left out

- The content of LLM turns, prompts, menus, prices and `route_intent`: an LLM turn is an arbitrary routed result.
- Voice messages in the dialog: transcription and its two early replies, which come before the inbound log.
- How many texts a reply consists of: the model has one reply event per message, and an exception inside a message is the message not advancing.
- Booking confirmation: what it does to the booking and its lookup of the pending one; its clearing of Redis is modelled.
- The legacy phone-only state key, and a pending order id whose row is gone.
- Deleting a customer row while a message is in flight.
- The row lock between the update and the commit of a clearing, which holds other writers off: not modelled, which allows more runs than the code has.
- Cross-tenant unique keys, foreign keys and sequences in Postgres: each row id is handed out to one tenant beforehand.
- Lock waits and serialization failures between transactions of one tenant: the later commit wins.
- Database roles that skip row policies, and the migration's loops over tables.
- A setting that is not an integer makes the statement fail in Postgres; here it shows no row (`BadSetting`).
- PBKDF2 and the choice of salt: parameters.
- Unicode digits, whitespace and case folding: text is treated as ASCII by `Strip`, `Norm` and `ParseInt`.
- OrderConfirmation.OrderRow.HandleYes: the texts of the replies, the operator alert and the published events are not modelled.
- DialogModes.ClearingStrands: the state key expiring while the answer is being handled is not covered; `ClearingLeads` says what then happens to the order key.
- Inbound.Store.ProcessItem: the backoff between passes, the apology after the last one and channels other than WhatsApp are not modelled, and a message id is taken as already stripped.
- Inbound.ChatQueue.Enqueue: the expiry of the queue key and Redis errors are not modelled.
- The lock and lease of the per-chat serializer: only its queue is modelled.
- MessageAccounting.Aggregate: the date filter and the final sort by name are not modelled, and columns are abstracted to the cases the loop tells apart.
- PipelineTiming.PipelineStopwatch.Split: durations are exact reals, so binary floating point before the rounding is not modelled.
- VoiceStream.Stream.MaybeFlush: an exception from the transcriber is not modelled.
- RedisRateLimiter.Limiter.CheckWindow: a transport fault loses the whole pipeline or only its reply; a fault inside the transaction is not modelled.
- HTTP routes, templates, integrations with Telegram, WhatsApp, iiko and OpenAI, settings validation and connection pools: plumbing or easy members.

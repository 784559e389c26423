# A verified model of the BTPS SDK

Dafny models of the stateful and the cryptographic parts of the BTPS TypeScript
SDK, with proofs of what every run of them keeps. Each part has a value-level
specification (a state, and what each call or event does to it); where the
source is an object that updates its fields, a class beside it has those fields
and methods proved to do exactly what the specification says. The results are
lemmas about the specification, over all inputs and all runs.

| files | what they model |
|---|---|
| `client.dfy`, `client_outcomes.dfy`, `btps_client.dfy` | the client: one socket, in-flight requests with their timeouts, reconnects, backpressure, driven by events in any order |
| `transporter.dfy` | the pool of clients and its TTL timers |
| `json_store.dfy`, `store_calls.dfy` | the write-back JSON file store over a virtual file |
| `rate_limiter.dfy` | the fixed-window rate limiter |
| `json.dfy`, `crypto.dfy`, `sign_encrypt.dfy` | ordered JSON objects, symbolic signatures and ciphertexts, `signEncrypt` and `decryptVerify` |
| `delegation.dfy`, `identity.dfy` | delegation and attestation, made by the delegator and checked by the server |
| `trust.dfy`, `token_store.dfy`, `authentication.dfy`, `auth_calls.dfy`, `btps_authentication.dfy` | trust records, tokens, agents and key rotation |
| `session_store.dfy` | the client-side session store |
| `server_checks.dfy`, `pipeline.dfy`, `line_courses.dfy`, `btps_server.dfy` | the server's signature and trust checks and the middleware pipeline around them |
| `middleware_manager.dfy` | loading, sorting and selecting middleware |
| `pem.dfy` | the PEM codec |
| `ordered_map.dfy`, `wrappers.dfy` | JavaScript maps and objects in insertion order; option and result types |

Conventions. A JavaScript object is a list of distinct (name, value) entries: a
spread overwrites in place or appends, a rest pattern removes, and serialising
drops undefined fields and keeps the order. Keys, signatures, fingerprints and
ciphertexts are terms holding the key and the message. Time is an argument of
every call. Randomness, DNS and what a socket's `write` returns are arguments
too. A method that awaits is split there, and each part is an event.

## What was found

Where code and documentation, or code and expectation, disagree, the model
follows the code and the exact condition is proved.

- `destroy()` of the client settles nothing: every queued request loses its timer, and unless its `dispatch` is still waiting for a socket it never settles (`Client.DestroyStrands`, `Client.DestroyNeverSettles`). A suspended one settles on resuming unless a reconnect is under way (`Client.ResumeSettlesIff`). A destroyed client may still connect: exactly when is `Client.SocketAfterDestroyIff`.
- The client's `end` handler inverts its retry test: it settles everything when it announces a reconnect, and reconnects when it announces none (`Client.ErrorAndEndDiffer`). `flushBackpressure` never writes in any reachable state (`Client.NothingWrittenTwiceByFlush`).
- After any line from the server a socket error never reconnects again, however long the connection goes on (`ClientOutcomes.NoRetryAfterALine`).
- A request made while the client connects is not written when the connection comes up (`Client.MadeWhileConnecting`), and a reply makes the client write the request first in the queue once more (`Client.ReplyWritesIff`, `Client.FirstIsWrittenTwice`).
- An encrypted document comes back only if it is truthy and, being text, parses to itself, or is empty text; encrypted null comes back as ciphertext with success reported (`SignEncrypt.SealedReturnsIff`, `SignEncrypt.SealedFalsyStaysCipher`). A receiver that gives no key is not refused (`SignEncrypt.OthersRefusedIff`).
- The token store keeps auth and refresh tokens in one key space: each validates as the other, and a colon in an identity moves its end (`Authentication.AnswersOwnUserIff` and the three examples after it). Trust ids are ambiguous exactly for parts with a colon (`Trust.SharesItsIdIff`).
- A delegation made on a user's behalf is signed before its attestation is added and checked with it inside, so it is never accepted; and a delegation in the sender's own name needs an attestation, so neither is that (`Delegating.AttestedDelegationRefused`, `Delegating.OwnDelegationAcceptedIff`).
- A response the server signs verifies at the client only if the server wrote an `encryption` field (`SignEncrypt.ResponseVerifiesIff`).
- `init()` of the JSON store brings deleted records back when it meets an empty dirty map over a file that still has some (`JsonStore.StepRefinesIff`, `JsonStore.DeletedRecordComesBack`); an update whose patch changes the id does not survive a reload (`JsonStore.UpdateSurvivesReloadIff`).
- A dirty store that notices an outside write takes its own flush for another one at the next read (`StoreCalls.NoticesItsOwnWrite`).
- A rate-limit refusal does not mean exactly `limit` grants in the last second, but between `limit` and `2 * limit - 1`; the exact case is characterised (`RateLimiter.RefusalMeansLimitReached`, `RateLimiter.RefusalAfterThreeGrants`).
- A key history is shared with the stored record, so a renewal whose update the store rejects has noted its key already: after a retry the key is there twice, in overlapping intervals (`Authentication.HistoryIsTimelineIff`, `Authentication.IntervalsOrderedIff`, `Authentication.RetryAfterRejection`).
- In a key history `firstSeen` is the time of the last renewal before the rotation, not of the first use its type documents (`Authentication.FirstSeenIsLastRenewal`).
- `validateTrustRequest` lets through what `canRetryTrust` denies exactly for expired accepted records without a later retry date (`Trust.RetryRulesDiffer`).
- Middleware registered after `onError` never runs, unless one before it gives the response another socket (`Pipeline.AfterErrorNeverRuns`, `Pipeline.AfterErrorRunsIff`). The checks are about the artifact object, so a middleware that overwrites it in place after them has its content delivered (`Pipeline.OverwrittenIsDelivered`). `responseSent` belongs to the connection (`Pipeline.AnsweredConnectionDelivers`).
- When an awaited listener fails and its error is handled late, the sender is told of success first and of the error after it (`LineCourses.FailureHandledLate`).
- Middleware without a priority runs last exactly if every explicit priority is below the largest safe integer, or equals it and is listed earlier (`MiddlewareManager.UnsetLastIff`).
- In the session store, removing an older session hides the newer one of the same user (`SessionStore.RemovingTheOldHidesTheNew`), and an identity is answered with another user's session exactly if its agent id holds one by now (`SessionStore.ForeignAnswerIff`).

## Model

| member | source | states |
|---|---|---|
| Client.TimerUntilSettled | src/client/btpsClient.ts:509-559 | In every run of events up to `destroy`, a promise is unsettled exactly as long as its timer is pending, and every queue entry is an unsettled promise's, filed under its own id with its own timer |
| Client.QueuedIffUnsettled | src/client/btpsClient.ts:509-531 | With distinct ids, unsettled, queued and timer pending are the same thing before `destroy` |
| Client.LimitsHold | src/client/btpsClient.ts:290-301 | In-flight requests never exceed any bound on the `maxQueue` values configured so far, and the reconnects scheduled equal `retries` and never exceed such a bound on `maxRetries` |
| Client.StepWithin | src/client/btpsClient.ts:374-380 | Each event keeps those bounds, and only `update` changes the options |
| Client.NothingWrittenTwiceByFlush | src/client/btpsClient.ts:267-284 | In every reachable state a drain changes nothing, a waiting chunk implies draining, and every waiting chunk was handed to `write` already |
| Client.OutcomesStay | src/client/btpsClient.ts:442-461 | Over any events a promise keeps its first outcome and promises are never forgotten |
| Client.RepliesAnswerTheirOwnId | src/client/btpsClient.ts:219-231 | A promise that resolved with a reply got one carrying its own artifact's id |
| Client.EveryPromiseSettles | src/client/btpsClient.ts:517-529 | From every state reached before `destroy`, letting the timers run out leaves no promise unsettled |
| Client.RequestIsAnswered | src/client/btpsClient.ts:679-716 | On a connection that is up an admitted request is written at once, and a verified message with its id settles it with that reply and clears its timer |
| Client.SendWrites | src/client/btpsClient.ts:467-501 | The write of an admitted request: entry added, artifact on the wire, and on a full socket into the backpressure queue with draining set |
| Client.MadeWhileConnecting | src/client/btpsClient.ts:533-536 | A request admitted while the client is connecting is queued without a `dispatch` of its own, in every run before and after: no connection that comes up writes it |
| Client.WhoWrites | src/client/btpsClient.ts:241-253 | For such a request, only a verified message, through the pump, or another request's `dispatch` makes the client write at all |
| Client.ReplyWritesIff | src/client/btpsClient.ts:223-253 | A reply makes the client write the request then first in the queue if and only if there is one, it is valid and the connection takes writes, whether or not it was written before |
| Client.FirstIsWrittenTwice | src/client/btpsClient.ts:223-253 | Two requests sent one after the other: the answer to the second makes the client write the first again |
| Client.StepSafe | src/client/btpsClient.ts:158-212 | Every event keeps entries open and own, timers matched to unsettled promises, replies matched to ids |
| Client.DestroyStrands | src/client/btpsClient.ts:987-997 | `destroy` settles no queued promise, and strands it unless its `dispatch` still waits for a socket |
| Client.StrandedForever | src/client/btpsClient.ts:987-997 | A stranded promise stays unsettled under every later sequence of events |
| Client.DestroyNeverSettles | src/client/btpsClient.ts:987-997 | In every run, a queued request whose `dispatch` has come through stays unsettled after `destroy` for good |
| Client.ResumeSettlesIff | src/client/btpsClient.ts:536-559 | A `dispatch` resumed on a destroyed client settles its promise except when the lookup failed while a reconnect is under way |
| Client.SocketAfterDestroyIff | src/client/btpsClient.ts:290-301 | A destroyed client makes another socket in some run, options left alone, if and only if a reconnect is pending, a lookup is under way, or retries are left for the peer's end to spend |
| Client.RestingForever | src/client/btpsClient.ts:86-155 | Destroyed with no reconnect pending and no lookup under way, no run without the peer's end or new options makes a socket |
| Client.ReconnectAfterDestroy | src/client/btpsClient.ts:296-300 | A pending reconnect that fires leaves the destroyed client connected, on a new live socket |
| Client.ErrorAndEndDiffer | src/client/btpsClient.ts:165-201 | A socket error reconnects exactly when it announces so and settles every queued promise otherwise; the peer's end settles every one exactly when it announces a reconnect, else reconnects while retries are left, and then does neither |
| ClientOutcomes.EveryOutcomeHasItsCause | src/client/btpsClient.ts:214-231 | In every run every outcome of a promise has the event that accounts for it and found it open: a reply was taken off the verification queue with a valid signature and carries the promise's id, a bad signature with an invalid one, a timeout is its own timer, and so on for all eight outcomes |
| ClientOutcomes.StepExplained | src/client/btpsClient.ts:214-253 | One event settles an open promise only with an outcome that event causes |
| ClientOutcomes.VerdictDecides | src/client/btpsClient.ts:219-238 | A verified message settles the request with its id as a reply exactly if its signature is valid and as a bad signature if not; a message whose verification throws, or with no such request, settles nothing |
| ClientOutcomes.ReplyToAnother | src/client/btpsClient.ts:223-253 | Of every other open request, a reply settles at most the one then first in the queue, only on a connection that is up, and only if that one is invalid or the connection takes no writes |
| ClientOutcomes.TimerTimesOut | src/client/btpsClient.ts:517-529 | A timer that runs out settles its own promise as timed out and takes out the entry of that id alone |
| ClientOutcomes.NoHostFailsAll | src/client/btpsClient.ts:536-552 | Without a host the request fails with that and everything else queued with the connection error, unless a reconnect is under way |
| ClientOutcomes.ResumedWritesIff | src/client/btpsClient.ts:467-501 | With a socket the request is written exactly if it is valid and the connection takes writes, and settled otherwise |
| ClientOutcomes.AdmittedIff | src/client/btpsClient.ts:679-716 | A request gets a promise exactly if the client is not destroyed, the artifact valid, and fewer than the maximum, by default 100, in flight |
| ClientOutcomes.OneLookupAtATime | src/client/btpsClient.ts:533-536 | While connecting, neither a request nor a reconnect starts another lookup |
| ClientOutcomes.RetryFiresLooksUp | src/client/btpsClient.ts:296-300 | A reconnect that fires looks the host up unless a socket lives or is being made |
| ClientOutcomes.ReconnectRules | src/client/btpsClient.ts:165-211 | Which error, end or close reconnects, settles everything or does neither, from the retries, the flags and the maximum, by default five |
| ClientOutcomes.NoRetryAfterALine | src/client/btpsClient.ts:214-215 | After any line from the server, however much follows, a socket error settles everything and never reconnects |
| ClientOutcomes.FlushWritesAll | src/client/btpsClient.ts:271-284 | A flush whose writes are all taken writes everything that waits in order |
| ClientOutcomes.DrainWritesAll | src/client/btpsClient.ts:267-284 | So does a drain, unless another flush is under way |
| ClientOutcomes.DrainStops | src/client/btpsClient.ts:271-284 | Without a live socket a drain writes nothing; a write that returns false ends it with the rest waiting in order |
| ClientOutcomes.GoneForGood | src/client/btpsClient.ts:977-997 | Over any events a socket that was destroyed or ended stays so |
| ClientOutcomes.ReportedGone | src/client/btpsClient.ts:86-100 | What the network reports of one socket changes nothing else |
| ClientOutcomes.UpdateKeepsTheRest | src/client/btpsClient.ts:374-380 | An option not given keeps its value |
| ClientOutcomes.DefaultLimits | src/client/btpsClient.ts:290-301 | Without options never more than 100 requests are in flight and five reconnects scheduled, in any run |
| ClientOutcomes.EndDisconnects | src/client/btpsClient.ts:977-982 | `end` lets go of the socket and leaves every request |
| ClientOutcomes.DestroyedWith | src/client/btpsClient.ts:145-153 | `destroy` and the idle timeout destroy their sockets and settle no promise |
| ClientOutcomes.DestroyFreezes | src/client/btpsClient.ts:987-997 | After `destroy` no event makes the client admit or write anything more |
| ClientOutcomes.FirstRequestIsWritten | src/client/btpsClient.ts:86-155 | A new client's first request: looked up, connected, written, from the events alone |
| ClientOutcomes.FirstRequestIsAnswered | src/client/btpsClient.ts:214-238 | Its verified answer settles it and leaves nothing behind |
| ClientOutcomes.FirstRequestWithoutHost | src/client/btpsClient.ts:110-117 | Without a host it fails with that and the client is no longer connecting |
| ClientObject.BtpsClient.constructor | src/client/btpsClient.ts:60-83 | A new client has no socket, no requests, and may retry |
| ClientObject.BtpsClient.GetRetryInfo | src/client/btpsClient.ts:338-357 | Will retry: retries left, not destroyed, not a non-retryable error, retrying not switched off |
| ClientObject.BtpsClient.RetryConnect | src/client/btpsClient.ts:290-301 | One more retry and one more timer, unless the maximum is reached |
| ClientObject.BtpsClient.CleanupQueue | src/client/btpsClient.ts:319-331 | The loop clears every entry's timer, settles every entry if given an error, and empties the queue |
| ClientObject.BtpsClient.ResolveError | src/client/btpsClient.ts:308-313 | Disconnected, socket forgotten, queue cleaned up with the error |
| ClientObject.BtpsClient.ProcessResolveOnError | src/client/btpsClient.ts:442-461 | The promise resolved with the error, its timer cleared, the entry of its id deleted |
| ClientObject.BtpsClient.SendArtifact | src/client/btpsClient.ts:467-501 | Refused when invalid or not connected; else written, and queued for backpressure when `write` says false |
| ClientObject.BtpsClient.StartGetSocket | src/client/btpsClient.ts:86-119 | A live socket is handed back at once, otherwise the client is connecting and the lookup starts |
| ClientObject.BtpsClient.Send | src/client/btpsClient.ts:679-716 | Refused when destroyed, invalid or full; else dispatched |
| ClientObject.BtpsClient.Dispatch | src/client/btpsClient.ts:509-536 | New promise, timer and queue entry; waits for a socket unless the client is connecting already |
| ClientObject.BtpsClient.DispatchResumed | src/client/btpsClient.ts:536-559 | After the socket call: settle with its error and clean up, or send |
| ClientObject.BtpsClient.LookupFailed | src/client/btpsClient.ts:110-117 | No longer connecting; the caller gets the error |
| ClientObject.BtpsClient.LookupDone | src/client/btpsClient.ts:119-145 | A new socket is being connected for this call |
| ClientObject.BtpsClient.Connected | src/client/btpsClient.ts:128-142 | The socket becomes the client's, the call gets it |
| ClientObject.BtpsClient.OnSocketError | src/client/btpsClient.ts:165-185 | Reconnect when retrying, otherwise settle everything |
| ClientObject.BtpsClient.OnSocketEnd | src/client/btpsClient.ts:187-201 | The inverted test as written |
| ClientObject.BtpsClient.OnSocketClose | src/client/btpsClient.ts:203-211 | Everything in flight is settled with the error |
| ClientObject.BtpsClient.OnConnectionTimeout | src/client/btpsClient.ts:145-153 | The idle socket and the client are destroyed |
| ClientObject.BtpsClient.OnData | src/client/btpsClient.ts:214-220 | Retrying switched off; a parsed message goes to verification |
| ClientObject.BtpsClient.OnVerified | src/client/btpsClient.ts:220-238 | The matching request is removed, its timer cleared, its promise resolved, the next job pumped; other messages touch no request |
| ClientObject.BtpsClient.PumpNextQueue | src/client/btpsClient.ts:241-253 | The first queued job is sent again when connected |
| ClientObject.BtpsClient.OnTimeout | src/client/btpsClient.ts:517-529 | The entry of the id is deleted and the promise settled as timed out |
| ClientObject.BtpsClient.OnRetryTimer | src/client/btpsClient.ts:296-300 | A reconnect starts unless a socket lives or is being made |
| ClientObject.BtpsClient.FlushLoop | src/client/btpsClient.ts:271-284 | The loop writes waiting chunks in order until none is left, the socket cannot take them, or a write returns false |
| ClientObject.BtpsClient.FlushBackpressure | src/client/btpsClient.ts:267-284 | Nothing while draining, else the loop |
| ClientObject.BtpsClient.Update | src/client/btpsClient.ts:374-380 | Given options replace the current ones |
| ClientObject.BtpsClient.End | src/client/btpsClient.ts:977-982 | Disconnected, socket ended and forgotten |
| ClientObject.BtpsClient.Destroy | src/client/btpsClient.ts:987-997 | Every flag reset, backpressure dropped, socket destroyed, timers cleared, nothing settled |
| Transporter.PoolIsSound | src/client/btpsTransporter.ts:137-275 | In every interleaving, TTL timers and connections are in bijection, and every client made is registered or was destroyed exactly once |
| Transporter.StepInv | src/client/btpsTransporter.ts:237-275 | Each of the nine kinds of step keeps that |
| Transporter.PerformInv | src/client/btpsTransporter.ts:137-206 | A successful registration leaves at most `maxConnections` connections, its own timer armed with the TTL, all others untouched; a failed one removes a connection only when overriding |
| Transporter.OverrideLosesIff | src/client/btpsTransporter.ts:137-206 | A registration loses the connection there was, without a new one, exactly if it overrides and then meets the maximum or a client that does not construct |
| Transporter.FireIsDeregister | src/client/btpsTransporter.ts:224-228 | A timer that fires removes the connection it was armed for, never a successor |
| Transporter.DestroyEmpties | src/client/btpsTransporter.ts:495-502 | `destroy` leaves no connection and no timer |
| Transporter.PoolNeverOutgrows | src/client/btpsTransporter.ts:171-180 | The pool never exceeds the largest maximum it was given in the run |
| Transporter.TtlUpdateReaches | src/client/btpsTransporter.ts:355-365 | A TTL change applied to existing connections re-arms every one with it, unless it is zero |
| Transporter.RegistrationAnswers | src/client/btpsTransporter.ts:137-206 | The five outcomes of a registration in order, which connection there is after each, and its TTL |
| Transporter.LockedRegistrationWaits | src/client/btpsTransporter.ts:237-258 | A registration behind its identity's lock waits; any other is performed and takes the lock |
| Transporter.WaitingRegistrationResumes | src/client/btpsTransporter.ts:237-258 | A waiting registration is performed when resumed, and waits no longer |
| Transporter.FinishedUnlocks | src/client/btpsTransporter.ts:237-258 | A finished registration frees its own id and nothing else |
| Transporter.DeregisterEnds | src/client/btpsTransporter.ts:266-275 | Deregistering destroys the one client once more, clears its timer and touches no other |
| Transporter.NewPoolIs | src/client/btpsTransporter.ts:339-341 | A new pool is empty, with its maximum and TTL as given; a new maximum closes nothing |
| Transporter.UpdateRearms | src/client/btpsTransporter.ts:355-435 | A TTL other than zero re-arms the one connection, and the default is replaced either way |
| Transporter.BtpsTransporter.PerformConnectionRegistration | src/client/btpsTransporter.ts:137-206 | Invalid identity, existing connection, maximum, failing client, success: state and answer of each |
| Transporter.BtpsTransporter.RegisterConnection | src/client/btpsTransporter.ts:237-258 | A registration behind the identity's lock waits, any other is performed at once |
| Transporter.BtpsTransporter.ResumeRegistration | src/client/btpsTransporter.ts:237-258 | A waiting registration is performed when its turn comes |
| Transporter.BtpsTransporter.FinishRegistration | src/client/btpsTransporter.ts:237-258 | The identity's lock is released |
| Transporter.BtpsTransporter.DeregisterConnection | src/client/btpsTransporter.ts:266-275 | Timer cleared, client destroyed, entry deleted |
| Transporter.BtpsTransporter.OnTimer | src/client/btpsTransporter.ts:224-228 | The callback of a TTL timer |
| Transporter.BtpsTransporter.UpdateConnection | src/client/btpsTransporter.ts:415-435 | A truthy TTL replaces the timer |
| Transporter.BtpsTransporter.UpdateConnectionTTLSeconds | src/client/btpsTransporter.ts:355-365 | The new TTL, and the loop over existing connections |
| Transporter.BtpsTransporter.SetMaxConnections | src/client/btpsTransporter.ts:339-341 | The new maximum, no connection closed |
| Transporter.BtpsTransporter.Destroy | src/client/btpsTransporter.ts:495-502 | The loop that deregisters everything |
| JsonStore.StepRefinesIff | src/core/storage/JsonStorageStore.ts:121-181 | A call answers and acts as on a plain map if and only if it is not one where `init()` brings deleted records back |
| JsonStore.RunIsPlain | src/core/storage/JsonStorageStore.ts:61-125 | Over every run without such a call the store stands for the plain map |
| JsonStore.StoreIsPlainMap | src/core/storage/JsonStorageStore.ts:121-181 | Under any schedule of flushes and reloads every call of such a run answers as a plain map that began with the file's records |
| JsonStore.DeletedRecordComesBack | src/core/storage/JsonStorageStore.ts:121-125 | Create, flush, delete, read: the deleted record is answered |
| JsonStore.UpdateSurvivesReloadIff | src/core/storage/JsonStorageStore.ts:157-173 | An update survives flush and reload exactly if its patch leaves the id alone |
| JsonStore.OutsideWriteTakenWhole | src/core/storage/JsonStorageStore.ts:61-69 | After an outside write is noticed, memory and file agree and hold one side's records whole |
| JsonStore.FlushThenReopen | src/core/storage/JsonStorageStore.ts:186-197 | A dirty store flushed and opened again holds the same map |
| JsonStore.RefreshInv | src/core/storage/JsonStorageStore.ts:61-91 | After a read memory is the whole truth |
| StoreCalls.UpdateWritesThePatch | src/core/storage/JsonStorageStore.ts:157-173 | An accepted update answers, and keeps for the next read, the record read before with every field of the patch in place of its own and every other field as it was |
| StoreCalls.UpdateRefusedIff | src/core/storage/JsonStorageStore.ts:157-163 | An update is refused exactly for an id a read would not find |
| StoreCalls.CreateWritesTheInput | src/core/trust/storage/JsonTrustStore.ts:30-52 | A record created is the one read next; refused exactly for an input with an id or an id a read finds |
| StoreCalls.DeleteTakesOneOut | src/core/storage/JsonStorageStore.ts:175-181 | A deleted record is not read next and no other read changes, outside the states where records come back |
| StoreCalls.FlushWrites | src/core/storage/JsonStorageStore.ts:93-116 | A flush writes the whole map in order and remembers the time, only if dirty |
| StoreCalls.NoticesItsOwnWrite | src/core/storage/JsonStorageStore.ts:61-69 | A dirty store that notices an outside write remembers that file's time, so its own write counts as an outside one at the next read |
| StoreCalls.FirstRead | src/core/storage/JsonStorageStore.ts:74-91 | A store opened first makes an empty file, or reads the one there is |
| StoreCalls.PlainReads | src/core/storage/JsonStorageStore.ts:121-125 | Of the plain map the store refines: reads change nothing and answer what is filed |
| StoreCalls.PlainCreates | src/core/trust/storage/JsonTrustStore.ts:30-52 | A create files exactly the input, or refuses |
| StoreCalls.PlainUpdates | src/core/storage/JsonStorageStore.ts:157-173 | An update lets the patch win field by field, and touches one record |
| StoreCalls.PlainRest | src/core/storage/JsonStorageStore.ts:175-197 | A delete takes one record out; flushes, reloads and the clock change nothing |
| JsonStore.JsonStorageStore.Init | src/core/storage/JsonStorageStore.ts:74-91 | The loading loop: the file created or read into the map |
| JsonStore.JsonStorageStore.WriteToFile | src/core/storage/JsonStorageStore.ts:93-116 | A dirty map is written whole and its mtime remembered |
| JsonStore.JsonStorageStore.ReloadIfChanged | src/core/storage/JsonStorageStore.ts:61-69 | Another mtime leads to flush and reload |
| JsonStore.JsonStorageStore.FlushAndReload | src/core/storage/JsonStorageStore.ts:193-197 | Flush, then read the file again |
| JsonStore.JsonStorageStore.GetById | src/core/storage/JsonStorageStore.ts:121-125 | State and answer of a read |
| JsonStore.JsonStorageStore.GetAll | src/core/trust/storage/JsonTrustStore.ts:57-62 | State and answer of reading all records |
| JsonStore.JsonStorageStore.Create | src/core/trust/storage/JsonTrustStore.ts:30-52 | Refuses an input with an id and an id in use, else stores the record |
| JsonStore.JsonStorageStore.Update | src/core/storage/JsonStorageStore.ts:157-173 | Merges the patch into an existing record, else refuses |
| JsonStore.JsonStorageStore.Delete | src/core/storage/JsonStorageStore.ts:175-181 | Deletes and marks dirty only if the id was there |
| RateLimiter.SlidingSpanBound | src/server/libs/btpsSimpleRateLimiter.ts:50-67 | In any closed span of T ms one key is granted at most L * (T / 1001 + 2) - 1 calls, with L the limit or 1, whatever else goes on |
| RateLimiter.DecisionIsOwn | src/server/libs/btpsSimpleRateLimiter.ts:50-67 | A decision depends on the key's own calls of its own type and that type's limit alone |
| RateLimiter.CleanupInvisible | src/server/libs/btpsSimpleRateLimiter.ts:36-48 | Inserting a cleanup anywhere changes no later decision |
| RateLimiter.RefusalMeansLimitReached | src/server/libs/btpsSimpleRateLimiter.ts:50-67 | A refusal means between limit and 2 * limit - 1 grants in the last second, exactly limit if and only if the previous window's last grant is older than that |
| RateLimiter.RefusalAfterThreeGrants | src/server/libs/btpsSimpleRateLimiter.ts:50-67 | Limit 2, grants at 0, 1000, 1001, 1002: refused at 1003 with three grants in the last second |
| RateLimiter.EachKindHasItsLimit | src/server/libs/btpsSimpleRateLimiter.ts:50-67 | The span bound for addresses in terms of the limit per address, and for identities in terms of theirs |
| RateLimiter.GrantedWithinTheFirstSecondIff | src/server/libs/btpsSimpleRateLimiter.ts:54-62 | A call within a second of the first its key ever made is granted exactly while the key has made fewer calls than the address limit, respectively the identity limit, or one |
| RateLimiter.FirstOfTheSecond | src/server/libs/btpsSimpleRateLimiter.ts:50-67 | Of calls within one second of the first exactly the first `limit` are granted |
| RateLimiter.GrantedAfterASecond | src/server/libs/btpsSimpleRateLimiter.ts:56-60 | More than a second after all its own calls a key is granted again |
| RateLimiter.RefusalByItsLimit | src/server/libs/btpsSimpleRateLimiter.ts:50-67 | A refused address had between its limit and twice that less one grants in the last second, a refused identity by its own |
| RateLimiter.BtpsSimpleRateLimiter.IsAllowed | src/server/libs/btpsSimpleRateLimiter.ts:50-67 | Decision and new counters of a call |
| RateLimiter.BtpsSimpleRateLimiter.Cleanup | src/server/libs/btpsSimpleRateLimiter.ts:36-48 | Exactly the counters older than a second go |
| SignEncrypt.RoundTripIff | src/core/crypto/signEncrypt.ts:29-82 | Every document whatsoever, with or without a serialise/parse hop: it comes back to whoever can open it, as sent or as it serialises, if and only if it was not encrypted, or is empty text, or is truthy and, being text, parses to itself |
| SignEncrypt.UnsealedReturns | src/core/crypto/decryptVerify.ts:33-60 | Not encrypted, any document comes back to anyone |
| SignEncrypt.SealedReturnsIff | src/core/crypto/decryptVerify.ts:33-60 | Encrypted, a document comes back to the right key exactly under that condition |
| SignEncrypt.SealedReturnsInPractice | src/core/crypto/decryptVerify.ts:33-60 | `JSON.parse` never returning its own text: encrypted text comes back only if empty, anything else only if truthy |
| SignEncrypt.SealedFalsyStaysCipher | src/core/crypto/decryptVerify.ts:54-56 | Encrypted null, false or zero reaches the right receiver as ciphertext, with success reported |
| SignEncrypt.ReceivedAs | src/core/crypto/decryptVerify.ts:20-60 | For any document and receiver, the document step decides what `decryptVerify` hands back, or its error |
| SignEncrypt.RoundTripOthers | src/core/crypto/decryptVerify.ts:54-60 | Every other field comes back as sent, or as it serialises |
| SignEncrypt.SignatureAcceptedIff | src/core/crypto/decryptVerify.ts:20-31 | The receiver accepts the signature, hop or not, if and only if it checks with the signer's own key and the payload brought no signature or delegation of its own |
| SignEncrypt.DeliveredAcceptedIff | src/core/crypto/decryptVerify.ts:20-31 | The same for any signed object, whatever its fields |
| SignEncrypt.OpenArrived | src/core/crypto/decryptVerify.ts:33-42 | For any document and receiver: as it arrived where nothing was encrypted, no key is given or the text is empty; read back for the right key; refused for any other |
| SignEncrypt.OthersRefusedIff | src/core/crypto/decryptVerify.ts:33-42 | A receiver who cannot open what was encrypted is refused if and only if it gives a key and there is text to decrypt; otherwise it is handed what arrived, with success reported |
| SignEncrypt.TamperingRefused | src/core/crypto/decryptVerify.ts:20-31 | With the signature kept, any change to what is serialised, or to its order, is refused |
| SignEncrypt.ResponseVerifiesIff | src/client/btpsClient.ts:620-631 | A signed response verifies at the client if and only if the server wrote an `encryption` field |
| SignEncrypt.EncryptsExactlyWhenAsked | src/core/crypto/signEncrypt.ts:36-58 | What is sent has a null `encryption` exactly if no receiver, no selector or no mode was given, with the document in clear; otherwise the document is its ciphertext, or empty text, under an AES key wrapped for the key DNS has for the receiver |
| SignEncrypt.SendsIff | src/core/crypto/signEncrypt.ts:29-82 | When something is sent, and why not: the receiver's identity, its key, then the keys themselves, in that order |
| SignEncrypt.SentFields | src/core/crypto/signEncrypt.ts:60-82 | Id and time of issue are drawn where the payload has none; the signature names SHA-256 and the signer's key |
| SignEncrypt.NothingToDecrypt | src/core/crypto/decryptVerify.ts:36-42 | Under an `encryption` that is empty, or a number or truth value, or without a key or text to decrypt, the document is handed over as it came |
| SignEncrypt.UnknownCipherRefused | src/core/crypto/index.ts:66-76 | Under one without the known cipher, text is refused to whoever gives a key |
| SignEncrypt.RefusedWith | src/core/crypto/decryptVerify.ts:20-31 | What a wire whose signature does not verify is refused with: mismatch, failed verification, or a rejection when it names no algorithm |
| SignEncrypt.ReadKeepsTheRest | src/core/crypto/decryptVerify.ts:54-60 | What is read has every field but the document as it arrived, and a delegation only if truthy |
| Crypto.SignedVerifiesIff | src/core/crypto/index.ts:188-230 | A signature verifies for exactly one key and one serialised message |
| Crypto.OneSignatureOneMessage | src/core/crypto/index.ts:188-230 | Two messages accepted with one signature are the same text and the same key |
| Crypto.DecryptEncryptIff | src/core/crypto/index.ts:34-122 | Whatever was encrypted, the receiver's key reads it back and any other fails; empty text is not hidden |
| Crypto.DecryptsOnlyTheOriginal | src/core/crypto/index.ts:75-122 | Decryption succeeds only for a ciphertext with the named cipher, the key its AES key was wrapped for, and its own IV and tag |
| Crypto.VerifiesIff | src/core/crypto/index.ts:188-230 | A signature verifies exactly if it names the key's fingerprint and was made by its other half over this serialised message with the algorithm it names; when each of the other verdicts is given |
| Json.SerializeRemove | src/core/crypto/decryptVerify.ts:20 | Dropping a field commutes with serialising |
| Json.SerializePut | src/core/crypto/signEncrypt.ts:60-72 | Writing a defined field commutes with serialising |
| Json.ItemsAreWritten | src/core/crypto/index.ts:188-194 | In an array every item is written, undefined as null |
| Json.RemoveShowsIfDefined | src/core/crypto/decryptVerify.ts:20 | Dropping a field shows in the text exactly if it was defined |
| Delegating.OwnDelegationAcceptedIff | src/core/delegation/BtpsDelegator.ts:101-147 | What a delegator issues in its own name is accepted if and only if DNS has its key, the agent key named is the signer's own, the artifact brought no signature or delegation, and the delegator is another account of the sender's domain |
| Delegating.AttestedDelegationRefused | src/core/delegation/BtpsDelegator.ts:139-147 | No delegation issued on a user's behalf is accepted, whatever DNS says |
| Delegating.AttestationVerifiesIff | src/core/delegation/BtpsDelegator.ts:183-203 | What `createAttestation` makes passes `verifyAttestation` exactly if DNS has the attestor's own key at the selector |
| Delegating.AcceptedMeansSigned | src/server/btpsServer.ts:803-890 | Acceptance means the delegator's published key signed artifact plus delegation, the agent key named signed the bare artifact, the delegator may delegate, and in the sender's own name it was attested |
| Delegating.DelegationTamperingRefused | src/server/btpsServer.ts:866-870 | Two accepted artifacts with one delegation signature agree in everything signed, order included |
| Delegating.BothVerifyIff | src/server/btpsServer.ts:854-881 | Both signatures check out exactly when every key is its signer's own and the artifact brought none before |
| Delegating.ReceiverAcceptsIff | src/core/crypto/decryptVerify.ts:20-31 | The receiver of a delegated artifact accepts its signature with a key exactly if that is the agent's own, its pair matches, and the artifact brought no signature or delegation |
| Delegating.ReceiverReadsIff | src/core/crypto/decryptVerify.ts:20-60 | `decryptVerify` then hands it over or fails over its document, and refuses it with any other key |
| Delegating.ReadyAlways | src/core/delegation/BtpsDelegator.ts:53-67 | However often `init` is called and fails, an initialised delegator holds a matching key pair |
| Delegating.AcceptedWithinADomainIff | src/core/delegation/BtpsDelegator.ts:101-147 | On actual identities: what `b$e` issues in its own name for the sender `a$d` is accepted if and only if d is e, a is not b, and every key is its owner's |
| Delegating.OwnDelegationSays | src/core/delegation/BtpsDelegator.ts:101-138 | In its own name a delegator writes agent, agent key, its identity, the time and its selector, and no other field of the artifact changes |
| Delegating.OnBehalfDelegationSays | src/core/delegation/BtpsDelegator.ts:139-147 | On a user's behalf it writes and signs as the user, and attests as itself with the user's selector |
| Delegating.DelegatesIff | src/core/delegation/BtpsDelegator.ts:101-147 | It delegates exactly when initialised, with a selector for the user asked for and keys that are keys; which error each lack leads to |
| Delegating.RefusedByPolicy | src/server/btpsServer.ts:809-833 | A delegation is refused as invalid exactly if the policy does not allow it or it is an unattested one in the sender's own name |
| Delegating.RefusedByAttestation | src/server/btpsServer.ts:836-841 | An attestation is checked first: which error a missing key, a throwing lookup, a signature without algorithm, and one of another key lead to |
| Delegating.RefusedBySignature | src/server/btpsServer.ts:844-890 | Without one, the same of the delegator's signature, and no other verdict is given |
| Delegating.InitialisesIff | src/core/delegation/BtpsDelegator.ts:53-95 | `init` succeeds exactly if DNS has the public half of the delegator's key at the host's selector, and that is then what it holds; when it throws and when it fails |
| Identity.DelegatesWithinADomainIff | src/core/utils/index.ts:266-302 | For all non-empty parts without a `$`, `b$e` may delegate for `a$d` if and only if d is e |
| Identity.NoIdentityNeverPasses | src/core/utils/index.ts:285-297 | A sender or signer that is no identity never passes |
| Identity.NothingToAllow | src/core/utils/index.ts:272-283 | Nor does an artifact that names no sender, delegation or signer in text |
| Identity.ParsesToItsParts | src/core/utils/index.ts:25-35 | An identity parses to account and domain, whatever follows another `$` |
| Identity.ParsesToNothing | src/core/utils/index.ts:25-35 | Without a `$`, or with an empty part, nothing parses |
| Delegating.BtpsDelegator.constructor | src/core/delegation/BtpsDelegator.ts:39-45 | A new delegator has the default selector and is not initialised |
| Delegating.BtpsDelegator.VerifyDelegatorIdentity | src/core/delegation/BtpsDelegator.ts:73-95 | The selector found is kept even when no key, or another key, is found |
| Delegating.BtpsDelegator.Init | src/core/delegation/BtpsDelegator.ts:53-67 | Key and flag are set only after a matching lookup |
| Delegating.BtpsDelegator.Delegate | src/core/delegation/BtpsDelegator.ts:101-147 | State unchanged; delegation in the own name, or in a user's name with an attestation added |
| Trust.TrustIdInjective | src/core/trust/index.ts:75-79 | Trust ids agree only if both parts do up to case, with colon-free senders, colon-free receivers, or one pair colon-free throughout |
| Trust.SameUpToCaseIff | src/core/trust/index.ts:75-79 | Two parts count as one in a trust id exactly if they differ at most in the case of their letters |
| Trust.SharesItsIdIff | src/core/trust/index.ts:75-79 | A pair shares its id with another that differs by more than case if and only if one of its parts has a colon |
| Trust.IdentitiesShareAnId | src/core/trust/index.ts:75-79 | Two different pairs of identities share one id |
| Trust.RefusalsSay | src/core/trust/index.ts:44-113 | Which refusal a trust request or response gets, from the record alone |
| Trust.RetryRulesDiffer | src/core/trust/index.ts:44-136 | A retry allowed by `canRetryTrust` passes `validateTrustRequest`, and exactly when the converse fails |
| Trust.ActiveUntilExpiry | src/core/trust/index.ts:29-34 | A record stops being active right after `expiresAt`, once and for all |
| TokenStore.InMemoryTokenStore.Store | src/core/authentication/storage/InMemoryTokenStore.ts:28-49 | Files the token under owner and token, lower case, with its expiry |
| TokenStore.InMemoryTokenStore.Get | src/core/authentication/storage/InMemoryTokenStore.ts:66-82 | The stored token until its expiry; an expired one is dropped |
| TokenStore.InMemoryTokenStore.Remove | src/core/authentication/storage/InMemoryTokenStore.ts:89-91 | The one entry goes |
| TokenStore.InMemoryTokenStore.Cleanup | src/core/authentication/storage/InMemoryTokenStore.ts:96-111 | The two loops drop exactly the expired entries |
| Authentication.SpentForever | src/core/authentication/BtpsAuthentication.ts:219-267 | In every run with fresh draws, whatever identities and presented strings hold, a validated auth token and an exchanged refresh token are refused ever after: to anyone, in any case, however cut from its owner, by every call |
| Authentication.OneRefreshTokenPerAgent | src/core/authentication/BtpsAuthentication.ts:359-370 | In every run with fresh draws no agent, up to case, has two refresh tokens stored |
| Authentication.RunInv | src/core/authentication/BtpsAuthentication.ts:219-375 | Every entry is filed under its owner, no token is stored twice, no agent has two refresh tokens, every trust record is an agent's |
| Authentication.ReissueIff | src/core/authentication/BtpsAuthentication.ts:276-353 | Exactly a stored, unexpired refresh token of the agent, with a usable key or none (an empty one counts as none), is exchanged, unless the store rejects the update |
| Authentication.ReissueSwaps | src/core/authentication/BtpsAuthentication.ts:355-366 | The exchange takes the old token out and puts one new one in, for the same user, and touches no other |
| Authentication.ReissuedIsGood | src/core/authentication/BtpsAuthentication.ts:355-375 | The new token is good for the same agent and user until its own expiry |
| Authentication.AnswersOwnUserIff | src/core/authentication/BtpsAuthentication.ts:241-267 | `validateAuthToken` answers with the user it was asked for, up to case, if and only if it found an auth token and the token presented has no colon |
| Authentication.AgentAnswered | src/core/authentication/BtpsAuthentication.ts:475-509 | `validateRefreshToken` names the agent asked for if it found a refresh token, and "anonymous" for an auth token |
| Authentication.RefreshTokenAsAuthToken | src/core/authentication/BtpsAuthentication.ts:241-254 | An agent's refresh token validates as an auth token under the agent's id, answers with its user, and is spent |
| Authentication.AuthTokenAsRefreshToken | src/core/authentication/BtpsAuthentication.ts:475-509 | An auth token validates as a refresh token under its user's identity |
| Authentication.ColonMovesTheUser | src/core/authentication/BtpsAuthentication.ts:241-254 | With a colon in the user's identity, its token validates for what stands before the colon |
| Authentication.HistoryIsTimelineIff | src/core/authentication/BtpsAuthentication.ts:321-353 | Over every run, history plus current key are exactly the successive distinct keys presented if and only if no renewal whose update the store rejected presented a key other than the current one |
| Authentication.TimelineGrows | src/core/authentication/BtpsAuthentication.ts:321-353 | Over every run the history only grows: by the previous key for an accepted rotation, and by the current key again for a rejected one |
| Authentication.PushedTimeline | src/core/authentication/BtpsAuthentication.ts:327-334 | A rejected rotation appends one entry too, and the current key comes twice |
| Authentication.RejectedTouchesHistoryOnly | src/core/authentication/BtpsAuthentication.ts:344-353 | A renewal whose update is rejected leaves every token, and of the trust records everything but that history, expiry included |
| Authentication.RetryAfterRejection | src/core/authentication/BtpsAuthentication.ts:327-353 | Key 1, a rejected renewal with key 2 and its retry: key 1 is noted twice, in overlapping intervals |
| Authentication.RefreshedTimeline | src/core/authentication/BtpsAuthentication.ts:324-337 | One accepted rotation appends exactly one entry and the new key; no other renewal changes the timeline |
| Authentication.IntervalsOrderedIff | src/core/authentication/BtpsAuthentication.ts:330-334 | On a clock that never goes back, firstSeen <= lastSeen <= every later firstSeen stays true of a history over a run if and only if no renewal presents another key to a record whose last interval ends after its last decision |
| Authentication.StepOverhangs | src/core/authentication/BtpsAuthentication.ts:330-349 | A record comes to that exactly by a rejected rotation later than its last decision, and stays so until it is renewed |
| Authentication.NoRejectionNoOverhang | src/core/authentication/BtpsAuthentication.ts:330-349 | So without rejected rotations every history stays in order |
| Authentication.FirstSeenIsLastRenewal | src/core/authentication/BtpsAuthentication.ts:330-334 | The interval of a key begins at the last renewal before its rotation, with no key presented or the same; that is when it was first noted if and only if no renewal came later |
| AuthCalls.AuthTokenIsGood | src/core/authentication/BtpsAuthentication.ts:219-267 | A stored auth token is good for its user until its expiry, exactly once |
| AuthCalls.NewAgentsTokenIsGood | src/core/authentication/BtpsAuthentication.ts:382-406 | A new agent's refresh token is good for it and its user until its own expiry, as often as asked |
| AuthCalls.TokenStays | src/core/authentication/storage/InMemoryTokenStore.ts:66-111 | A stored token is kept unchanged by every run that does not present it, clean-ups included, until its expiry |
| AuthCalls.CleanupTakesTheExpired | src/core/authentication/storage/InMemoryTokenStore.ts:96-111 | A clean-up takes out exactly what has expired |
| AuthCalls.LookupsTakeTheExpired | src/core/authentication/storage/InMemoryTokenStore.ts:66-82 | A look-up takes out nothing but the expired token it meets |
| AuthCalls.NewAgentsRecord | src/core/authentication/BtpsAuthentication.ts:66-96 | The record of a new agent and what it is told, a lifetime of zero being none; refused for a key that is none or an agent there is |
| AuthCalls.RenewedRecord | src/core/authentication/BtpsAuthentication.ts:304-353 | A renewed record field by field: accepted from now on, new expiry, the new key and one more history entry if it is another key |
| AuthCalls.ReissueAnswers | src/core/authentication/BtpsAuthentication.ts:276-353 | Why an exchange is refused: the token, then the record, then the key, then the store |
| AuthenticationObject.BtpsAuthentication.StoreAuthToken | src/core/authentication/BtpsAuthentication.ts:219-233 | Stored without agent under the user |
| AuthenticationObject.BtpsAuthentication.ValidateAuthToken | src/core/authentication/BtpsAuthentication.ts:241-267 | Answer and removal on success |
| AuthenticationObject.BtpsAuthentication.ValidateRefreshToken | src/core/authentication/BtpsAuthentication.ts:475-509 | Answer; only an expired token is removed |
| AuthenticationObject.BtpsAuthentication.CreateAgentTrustRecord | src/core/authentication/BtpsAuthentication.ts:66-96 | A new accepted record with an empty history of its own; a lifetime of zero means the default |
| AuthenticationObject.BtpsAuthentication.CreateAgent | src/core/authentication/BtpsAuthentication.ts:382-406 | Trust record and refresh token of a new agent |
| AuthenticationObject.BtpsAuthentication.RenewTrust | src/core/authentication/BtpsAuthentication.ts:304-353 | The patch shares the stored record's history array: the effect is one append all the same, and it stays when the update is rejected |
| AuthenticationObject.BtpsAuthentication.Renew | src/core/authentication/BtpsAuthentication.ts:344-366 | Record renewed and token exchanged, or, the update rejected, the push alone |
| AuthenticationObject.BtpsAuthentication.Exchange | src/core/authentication/BtpsAuthentication.ts:355-366 | The old token removed, the new one stored |
| AuthenticationObject.BtpsAuthentication.Rotate | src/core/authentication/BtpsAuthentication.ts:319-338 | A different key moves the previous fingerprint to the end of the shared history |
| AuthenticationObject.BtpsAuthentication.ValidateAndReissueRefreshToken | src/core/authentication/BtpsAuthentication.ts:276-375 | Refused, no trust, failed, update rejected or exchanged: state and answer of each |
| AuthenticationObject.BtpsAuthentication.Cleanup | src/core/authentication/BtpsAuthentication.ts:514-517 | Expired tokens dropped |
| SessionStore.IndexIs | src/core/authentication/storage/InMemoryAuthSessionStore.ts:22-98 | In every history the index holds an identity exactly if one of its sessions was stored and none of that identity left since, and then the agent stored last |
| SessionStore.HeldIs | src/core/authentication/storage/InMemoryAuthSessionStore.ts:22-98 | In every history an agent id holds exactly the session stored for it last and not gone since |
| SessionStore.LookupIs | src/core/authentication/storage/InMemoryAuthSessionStore.ts:57-65 | In every history an identity is answered with the unexpired session its agent holds, and nothing otherwise |
| SessionStore.ForeignAnswerIff | src/core/authentication/storage/InMemoryAuthSessionStore.ts:57-65 | The answer is another user's session exactly if the agent id pointed at holds one, unexpired, by now |
| SessionStore.DanglesIff | src/core/authentication/storage/InMemoryAuthSessionStore.ts:71-98 | The index dangles exactly where the agent pointed at holds nothing any more |
| SessionStore.IndexIsLastStored | src/core/authentication/storage/InMemoryAuthSessionStore.ts:22-98 | With one user per agent the index never dangles, and points at the session stored last unless one of its user was dropped since |
| SessionStore.LookupIsLastStored | src/core/authentication/storage/InMemoryAuthSessionStore.ts:57-65 | With one user per agent, looking an identity up gives exactly the unexpired session stored last, or nothing once one of that identity was dropped |
| SessionStore.SharedAgentAnswersForTheOther | src/core/authentication/storage/InMemoryAuthSessionStore.ts:22-27 | With one agent for two users, the first gets the other's session: the shortest case of `SessionStore.ForeignAnswerIff` |
| SessionStore.RemovingTheOldHidesTheNew | src/core/authentication/storage/InMemoryAuthSessionStore.ts:71-78 | Removing an older session hides the newer one of that user |
| SessionStore.DroppedIs | src/core/authentication/storage/InMemoryAuthSessionStore.ts:33-98 | Which sessions each operation takes out |
| SessionStore.AgentLookupIs | src/core/authentication/storage/InMemoryAuthSessionStore.ts:33-50 | In every history an agent id is answered with the session it holds until that expires |
| SessionStore.StoredIsFound | src/core/authentication/storage/InMemoryAuthSessionStore.ts:22-27 | A session just stored is its agent's and its user's |
| SessionStore.InMemoryAuthSessionStore.Store | src/core/authentication/storage/InMemoryAuthSessionStore.ts:22-27 | Both maps written |
| SessionStore.InMemoryAuthSessionStore.GetByAgentId | src/core/authentication/storage/InMemoryAuthSessionStore.ts:33-50 | The session until its expiry, an expired one removed |
| SessionStore.InMemoryAuthSessionStore.GetByIdentity | src/core/authentication/storage/InMemoryAuthSessionStore.ts:57-65 | Through the index |
| SessionStore.InMemoryAuthSessionStore.Remove | src/core/authentication/storage/InMemoryAuthSessionStore.ts:71-78 | Session and index entry of its user go |
| SessionStore.InMemoryAuthSessionStore.Cleanup | src/core/authentication/storage/InMemoryAuthSessionStore.ts:83-98 | The loops drop exactly the expired sessions and their users' index entries |
| ServerChecks.AgentSignatureAcceptedIff | src/server/btpsServer.ts:619-683 | A known agent's message is accepted exactly when the key expected for it, from the record or from a rotating renewal, signed it |
| ServerChecks.OnboardingAcceptedIff | src/server/btpsServer.ts:658-693 | An onboarding agent's message is trusted, and accepted exactly when its document's own key signed it |
| ServerChecks.TrustedUntilExpiry | src/server/btpsServer.ts:688-714 | From creation or renewal on, whatever calls follow, the agent is trusted up to the expiry it was told and at no later time until renewed |
| ServerChecks.SignaturesAccepted | src/server/btpsServer.ts:619-683 | From then on every correctly signed message to its user passes, rotating renewals included |
| ServerChecks.ReplacedKeyRefused | src/server/btpsServer.ts:664-683 | Once the record holds another key, a message under the old one is refused unless it is itself a renewal |
| ServerChecks.GrantedRecord | src/core/authentication/BtpsAuthentication.ts:66-96 | The record a grant leaves: accepted, until the expiry told, with the key presented |
| ServerChecks.AgentArtifactAddressed | src/client/btpsAgent.ts:83-137 | What `getAgentArtifact` signs has the fields the server goes by, and no signature |
| ServerChecks.SealedArtifactAcceptedIff | src/server/btpsServer.ts:895-917 | What `signEncrypt` makes passes the server exactly if the sender's selector resolves to its key |
| ServerChecks.RequestOrMessage | src/server/btpsServer.ts:922-952 | Between two identities a trust request and an ordinary artifact are never both let through, and neither from a blocked sender |
| ServerChecks.OrdinaryTrustedIff | src/core/trust/index.ts:29-34 | An ordinary artifact is trusted exactly while its sender's record for the receiver is accepted and not past its expiry |
| ServerChecks.RequestTrustedIff | src/core/trust/index.ts:44-64 | A trust request passes unless trust is active, the sender blocked, or a retry date to come |
| ServerChecks.ResponseTrustedIff | src/core/trust/index.ts:90-113 | A trust response passes exactly if the request it answers, filed the other way round, is pending and was made to its sender |
| ServerChecks.AgentTrustedIff | src/server/btpsServer.ts:688-714 | An agent is trusted exactly if it onboards or its record for the receiver is accepted and not past its expiry |
| ServerChecks.KeyOfAgent | src/server/btpsServer.ts:652-683 | Whose key an agent's message is checked with: its document's when onboarding or when new, the record's otherwise |
| ServerChecks.NothingToCheckWith | src/server/btpsServer.ts:619-650 | Without a record or a key the verdict is an error of its own kind |
| ServerChecks.DelegatedIsJudgedByDelegation | src/server/btpsServer.ts:895-917 | A delegated artifact is judged by its delegation alone, and passes only if the delegation is allowed |
| Pipeline.OnlyVerifiedIsDelivered | src/server/btpsServer.ts:491-571 | Whatever middleware and listeners do, listeners and the forward handler get only an object for which, earlier in this line, both checks answered yes on what it held at the time |
| Pipeline.DeliveredAsChecked | src/server/btpsServer.ts:491-571 | If nobody writes into artifacts in place from the signature check on, the content delivered and forwarded is the very content both checks passed |
| Pipeline.OverwrittenIsDelivered | src/server/btpsServer.ts:554-565 | A middleware before delivery that overwrites the object gets what it wrote delivered, unverified |
| Pipeline.ExecutedIsPrefix | src/server/btpsServer.ts:582-614 | When nothing throws, the middleware executed is a prefix of the eight phase lists in order, and nothing follows one that answers |
| Pipeline.UndisturbedLine | src/server/btpsServer.ts:281-332 | A line nobody interferes with runs four lists and an error, six and an error, or all eight with delivery, forwarding and success, as signature and trust decide |
| Pipeline.AnsweredConnectionDelivers | src/server/btpsServer.ts:582-587 | After an answer on the connection, a later good artifact is delivered exactly if no middleware is registered before delivery |
| Pipeline.AfterErrorNeverRuns | src/server/btpsServer.ts:1105-1134 | While nobody replaces the socket of a context, no middleware after onError is ever executed |
| Pipeline.AfterErrorRunsIff | src/server/btpsServer.ts:1105-1134 | It starts exactly if the list before it left the response another, live socket |
| LineCourses.ListCourse | src/server/btpsServer.ts:582-614 | Where a middleware list stops: it goes through if every handler leaves the line open, and otherwise ends with the first that throws or answers, whose context is handed on |
| LineCourses.StopsOnceAnswered | src/server/btpsServer.ts:582-587 | Once the connection was answered or its socket is gone, a line with middleware before parsing stops there with nothing done |
| LineCourses.ErrorHandlerThrows | src/server/btpsServer.ts:1105-1118 | An error middleware that throws ends the handling: nothing is replied and the socket not destroyed |
| LineCourses.AnsweredAtOnce | src/server/btpsServer.ts:281-352 | A line that is no artifact is answered at once without a check: which reply, and whether the connection ends |
| LineCourses.SignatureRefused | src/server/btpsServer.ts:505-527 | A failed signature check is refused with the connection left open; one that throws costs the socket |
| LineCourses.TrustRefused | src/server/btpsServer.ts:529-552 | A sender not trusted is refused and nothing delivered; an error is noted except for an agent that has a record |
| LineCourses.ReachesItsListener | src/server/btpsServer.ts:995-1015 | The content reaches the listener of its sort in the context of a verified line; a throw is caught, an answer ends the line, otherwise it is forwarded and confirmed |
| LineCourses.FailureHandledFirst | src/server/btpsServer.ts:978-987 | An awaited listener's failure handled first ends the connection and nothing is forwarded; the shared request context notes no error |
| LineCourses.FailureHandledLate | src/server/btpsServer.ts:978-987 | Handled late, the line was forwarded and confirmed, and the error reply follows the success |
| ServerObject.Connection.ExecuteMiddleware | src/server/btpsServer.ts:582-614 | The loop: stopped before or after a handler once a response was sent |
| ServerObject.Connection.HandleLine | src/server/btpsServer.ts:281-352 | Parsing with its two lists; errors answered; control and lookup lines answered by the type the object has by then; artifacts into the pipeline |
| ServerObject.Connection.ExecuteRequestPipeline | src/server/btpsServer.ts:491-527 | The object is read off the context once, after the first list, and checked |
| ServerObject.Connection.TrustAndDeliver | src/server/btpsServer.ts:529-552 | The same object's trust between its two lists |
| ServerObject.Connection.Deliver | src/server/btpsServer.ts:554-571 | Delivery between its two lists, then success |
| ServerObject.Connection.ProcessMessage | src/server/btpsServer.ts:955-1015 | Listeners first; an awaited agent listener that throws has its error handled beside the line; forwarded unless the response was sent |
| ServerObject.Connection.Forward | src/server/btpsServer.ts:1093-1097 | The handler, if there is one, gets the object as it is by then |
| ServerObject.Connection.HandleOnSocketError | src/server/btpsServer.ts:1105-1134 | Two lists around the destruction of the socket |
| ServerObject.Connection.HandleListenerError | src/server/btpsServer.ts:978-987 | The same on a copy of the request context, which leaves the shared one as it was |
| ServerObject.Connection.OnLine | src/server/btpsServer.ts:276-365 | One line with what it throws caught, and a failed listener's error handled |
| MiddlewareManager.SelectionIsOwnSort | src/server/libs/middlewareManager.ts:188-190 | Selecting a phase and step from the sorted list is stably sorting that phase and step's definitions alone |
| MiddlewareManager.FilterCommutesWithSort | src/server/libs/middlewareManager.ts:98-112 | The same for any filter |
| MiddlewareManager.SortSorts | src/server/libs/middlewareManager.ts:98-112 | The result is sorted and a permutation |
| MiddlewareManager.SortIsStable | src/server/libs/middlewareManager.ts:98-112 | Definitions of equal priority keep their order |
| MiddlewareManager.StableSortUnique | src/server/libs/middlewareManager.ts:98-112 | Sorted and stable determine the result |
| MiddlewareManager.UnsetLastIff | src/server/libs/middlewareManager.ts:98-112 | Definitions without priority run last exactly if no explicit one competes with the default |
| MiddlewareManager.LoadedIff | src/server/libs/middlewareManager.ts:117-171 | Loaded is exactly a definition of a known phase and step, a handler of at least three arguments, a priority that is none or not negative, and not disabled |
| MiddlewareManager.LowerPriorityFirst | src/server/libs/middlewareManager.ts:98-112 | Of two loaded definitions the lower priority runs first, none counting as the largest safe integer |
| MiddlewareManager.StepSelects | src/server/libs/middlewareManager.ts:188-190 | A phase and step select exactly the definitions that name them |
| MiddlewareManager.Manager.ValidateAndSort | src/server/libs/middlewareManager.ts:86-112 | Exactly the valid, enabled definitions, stably sorted |
| MiddlewareManager.Manager.GetMiddleware | src/server/libs/middlewareManager.ts:188-190 | The definitions of one phase and step, in order |
| Pem.RoundTrip | src/core/utils/index.ts:42-53 | `pemToBase64` undoes `base64ToPem` on every base64 string |
| Pem.LinesOf64 | src/core/utils/index.ts:50-53 | Every line but the last has exactly 64 characters, as section 2 of RFC 7468 requires, and together they are the input |
| Pem.UnwrapAnyWrapping | src/core/utils/index.ts:42-48 | Any LF or CRLF wrapping at any line length is undone |
| Pem.RewrapIsCanonical | src/core/utils/index.ts:42-53 | Re-wrapping gives one canonical block and is idempotent |
| Pem.Injective | src/core/utils/index.ts:50-53 | Different base64 gives different blocks |
| Pem.OtherTextStays | src/core/utils/index.ts:42-48 | Text without frame, line feed or space at its ends is returned as it is, single carriage returns included |
| Pem.BlockIs | src/core/utils/index.ts:50-53 | The block begins and ends with its frame, each on a line of its own |
| Pem.EmptyBlock | src/core/utils/index.ts:50-53 | A key of no characters is the bare frame as RFC 7468 writes it |

## Left out

- TLS sockets, DNS lookups, line splitting, file locking, process signals, logging and metrics: events and arguments stand for what they deliver. A lock that cannot be taken is not modelled; the dirty flag is cleared before the lock is taken, so a failure there loses the mark.
- Real RSA, AES-GCM and SHA-256: signatures and ciphertexts are terms, hashes and fingerprints are injective. A trust id is the lower-cased pair itself, and lower case is ASCII. A private key published in place of a public one encrypts nothing.
- JSON text: serialising is a function on ordered trees. Integer-like property names, which JavaScript moves to the front, own `toJSON` methods, duplicate keys in parsed text and numbers that JSON cannot hold are not modelled; a string spread as if it were an object reads as empty.
- The zod schemas: validity is a field of the artifact or part of the parsed line. Sender, receiver and agent id are strings, as the schemas require; a signature is an object of the signed shape or the verification throws.
- Pipeline.OnlyVerifiedIsDelivered: the lines of one connection are taken one at a time, not interleaved at their awaits, each check and each listener being one step, and several agent listeners count as one. The copy of the request context that a failed listener's error is handled on covers the fields of `Req`; what else hangs on the context is shared. The error of a failed awaited listener is handled either wholly before the line goes on or wholly after it, not in between. The request id of a line is not modelled.
- Client.TimerUntilSettled: an `error` listener that calls back into the client while an event is handled, and one missing where `emit` would throw, are not modelled. A timer may fire at any moment while pending; durations play no part. Whether an error is one of the non-retryable ones, told by its message, is a flag of the event. An artifact without an id is not valid, so the id drawn by `send` is never needed.
- Client.LimitsHold: maxima are integers; fractional ones are not modelled.
- RateLimiter.SlidingSpanBound: limits are integers.
- JsonStore.StoreIsPlainMap: calls do not overlap, and one call reads one file time; the filter of `getAll` by receiver, query helpers and the debounce delay are left out, a flush being possible between any two calls.
- JsonStore.JsonStorageStore.Create: the subclass for trust records is modelled, the id being given; the base class derives it from the identity alone.
- Authentication.SpentForever: calls on the token store do not overlap. Trust records change only through agents' creation and renewal; revoking or editing one from outside is not an event. Agent ids have the generated form and do not occur in the identity they are made for; tokens are fresh in any case and hold no colon. Identities and whatever callers present are any strings.
- Authentication.IntervalsOrderedIff: a call reads the clock once.
- AuthenticationObject.BtpsAuthentication.RenewTrust: metadata, privacy type and who decided are not modelled.
- ServerChecks.TrustedUntilExpiry: the trust store answers every lookup; one that fails is not modelled.
- ServerChecks.AgentArtifactAddressed: the transporter artifact an agent embeds as its document is any document.
- Transporter.PoolIsSound: what the clients of the pool do with their own sockets, and the events they pass on, are left out.
- SessionStore.LookupIsLastStored: `getAll` is left out.
- MiddlewareManager.Manager.ValidateAndSort: loading the module and the lifecycle hooks are left out; a definition of any other shape is one that is not valid.
- The end-to-end identity lookup, by client and server: the server's answer to it is an event of the pipeline, and what verifies of it is `SignEncrypt.ResponseVerifiesIff`.
- Factories, the type registry, error classes, constants, key generation, Mongo and Redis adapters, examples, the in-memory queue and the documentation site: they would only add easy members.

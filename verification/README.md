# Doppelgänger Protocol: a Dafny model and its proofs

Alice stores a memory question with the embedding of its answer and her ECDH public key; whoever opens
her one-time link gets one try at the answer; a good enough answer releases Alice's key to Bob and Bob's
key to Alice. The session lives in one Redis hash that moves `WAITING_FOR_BOB -> VERIFIED | FAILED` and
then disappears. Around that hash any number of verify requests, event streams on several worker
processes, a lossy pub/sub fan-out and two browser pages run at the same time. This project models all of
them as one step relation and proves what every run keeps.

`dafny verify dfyconfig.toml` checks the whole project.

## How it is built

| layer | files |
|---|---|
| values | `Domain`, `Rounding` (Python's half-to-even `round` and both routes to a percentage), `Similarity` (cosine over exact reals) |
| the store | `SessionStore` (Redis commands and the store's operations as functions on hashes), `StoreServer` (the same as a class that changes the hashes in place) |
| the specification | `AtomicSession`: a table of one-shot sessions on which each operation takes one instant; `History`: the same said without states, by what has happened so far |
| the running service | `StreamMachine` (one stream), `Registry` (a hub's dict of sets), `System` (everything together: one step is one Redis command or script, one move of one stream, one delivery or loss, or a lapse of time) |
| the invariant | `SystemInvariant`, `SystemProofs` |
| the theorems about the service | `Observed` and `Contents` (responses, store, messages and streams by the history of the run), `Guarantees`, `Delivery` (why subscribe comes before the check), `OutlivedResult`, `StreamsEnd`, `HardCap`, `KeyWithheld`, `Decision` |
| the bodies as they run | `EventHub`, `EventStream`, `VerifyRoute`, `Requests`, `EmbeddingClient`, `PageObjects`: classes, methods and loops, with the others at work around them |
| per-process start-up | `RedisClient`, `HubStart`: double-checked initialisers under any interleaving of threads and forks, and what one uninterrupted call comes to |
| the wire | `Sse`: writing, and reading by section 9.2 of the WHATWG HTML Standard |
| the browser | `Pages` (both pages of session.js, one step per piece between two awaits), `KeyAgreement` (pages and service together), `PageRuns` (what the pages show, which key pairs are uploaded), `HappyPath` (that they can succeed) |

## Main results

1. **Linearizable** with **RealTimeOrder**: every response and the store come out as if each create,
   verify, delete and lapse of time had happened in one instant, in an order that respects real time, even
   though a score is computed from a stale snapshot. **OnlyWinnersMatter**: requests answered 404, 409, 500
   or 503 might as well not have been made. **ObjectFromHistory** and **AnswersFromHistory** determine the atomic
   object a second time, by its log alone, and carry over to what can be seen from outside: **CallsByHistory** the
   responses, **StoreByHistory** every field of every stored hash, **GetShows** the answers of GET.
2. **SameKey**: whenever Alice's page shows "Identity Verified" and a Bob's page does too for the same
   session, both hold one key; **PairMatchesUpload** is the invariant behind it. **CanPassExactly**: some run
   gets them there if and only if sessions live at all and some answer scores at least the threshold.
   **BobIsAnswered**, **FailIsTrue** and **AliceIsTold**: in every run a page shows what its own session's answer or
   event says. **ExportsFreshKey** and **NextSessionNextPair**: each click on create exports the pair generated after
   the last reset, and once a page has got a session the next request has a new pair. That no pair is ever uploaded
   for two sessions is false: if the response to the first request is lost on its way back, that session exists, and
   the retry uploads the same pair again (**PairUploadedTwice**). **NewPairExactly**: between a page's upload and its
   next a new pair is generated if and only if no response was lost.
3. **KeyOnlyAfterPass**: Alice's key can be exchanged for any other in a whole run without anybody but a Bob
   with a PASS noticing.
4. **Agreement**, **OneWinner**, **NoMixedVerdicts**: one result per session, on all workers. **ExactNews**: every
   message, and whatever is told because of one, has the percentage, name and key of the winning call's response,
   and **ResultOfCall** says which percentage that is. **CheckedNews**: a check tells the same result, with the same
   percentage if and only if the score is no lost tie.
5. **NoLostResult**: whatever the transport drops, no stream still waits 15 seconds after its session got its
   result or went, and one opened after that is told at once. **ToldAtFirstCheck** and **NoGap** are what
   subscribing before the first check is for: what happens before the check, the gap included, is told by the
   check; what happens after it is in the stream's queue or on its way there, if the transport works, and can
   then be told without any time passing (**ToldWithoutDelay**, **PromptDelivery**).
   What a stream is told by a check is the state of the session at that moment, so a result can be outlived:
   **ResultOutlived** says that this takes a session that goes within 15 seconds of its result, or before the
   stream was opened, and **OutlivedExactly** that such runs exist if and only if results do.
   **EveryStreamCanEnd**: from every state the streams can all get to their ends.
6. **CapReachedExactlyByLongSessions**: some run ends a stream at the 15-minute cap if and only if the
   session TTL exceeds 900 seconds; with the default of 600 it never happens.
7. **RebuiltAgreesExactly**: the percentage rebuilt from the hash equals the live one if and only if the
   score is no lost tie. Plain equality is false: 0.75496 shows 75 live and 76 rebuilt (**RebuiltCanDiffer**).
8. The bodies as written. **Generate**: for every schedule the generator's output is the stream machine's.
   **Verify**: with any other commands during the embedding, the route is the atomic verify at one instant.
   **Serve**: any sequence of requests on a store object makes a legal log of the atomic object. **Embed**: with
   any other calls around it, the call's steps are those of the slot machine. **GetRedis** and
   **EnsureListener**: an uninterrupted call does what the start-up machines do. **Meet**: page objects taken
   through their parts of any run end as that run's pages do, and with one key.

## Assumptions

- A Redis command, transaction or script is one step. A key is gone from its expiry instant on; a TTL that is
  not positive deletes at once; `HSET` keeps the TTL. A message reaches each worker at most once, and any
  subset of the workers may miss it, at publication or later.
- Session ids are fresh. Request bodies have passed the validators.
- Time, in exact reals, passes only while every open stream is blocked in `q.get` with nothing queued; verify
  calls may stay between any two of their steps for as long as time passes elsewhere. There is one clock.
- Under the gevent worker of the Dockerfile a registry update and one fan-out are not interrupted. The
  theorems that let any message be lost, `NoLostResult` first, do not depend on it.
- A generator is closed only at a yield or before it first runs; an exception of a store read ends it as well.
- Scores are exact reals. A norm is any non-negative number whose square is the dot product of the vector with
  itself. The service theorems take the score function as a parameter, with `None` for the exception of
  `np.dot`; `Decision` puts the cosine in.
- JSON encoders are constructors and decoding is matching on them; for the wire any encoder without line breaks
  in its output will do.
- At a fork no lock is held, the forking thread is outside the initialisers, and the child's pid is new.
- ECDH is any pair of functions with `derive(a, pub(b)) == derive(b, pub(a))`. A page's user can only click what
  the visible screen offers and what is enabled.

Where the repository's documentation and its code differ, the model follows the code: README.md promises a TTL
of five minutes (lines 107, 110 and 132) while app/config.py:9 sets 600 seconds, and the header of
app/routes/session.py (lines 15-16) says that Alice's key goes back to Alice, while it goes to Bob
(app/routes/verify.py:81). The header of app/routes/stream.py (lines 14-15) says that a missed message costs at
most 15 seconds; it can also cost the result, when the session expires before the next heartbeat
(`OutlivedResult`).

## Model

| member | source | states |
|---|---|---|
| Guarantees.Linearizable | app/routes/verify.py:33-85 | in every run the log of operations is one that the atomic one-shot object allows, the store holds exactly that object's sessions, and each answered verify call has exactly one entry, made while it ran, with its response |
| Guarantees.RealTimeOrder | app/routes/verify.py:33-75 | a verify call that came in after another had been answered also comes after it in that log |
| AtomicSession.OnlyWinnersMatter | app/routes/verify.py:43-45 | leaving all verify calls without PASS or FAIL out of a legal log leaves a legal log with the same final state: Bob can simply retry |
| AtomicSession.EarlyExitForEveryAnswer | app/routes/verify.py:33-40 | an early 404 or 409 is what the atomic verify gives for every answer, and it changes nothing |
| AtomicSession.ReplayOneMore | app/services/session_store.py:32-42 | a log stays legal when it is extended by the atomic object's own response |
| AtomicSession.ApplyForward | app/services/session_store.py:32-42 | every operation moves every session forward: challenge and expiry stay, a result stays, gone stays gone and takes a result only from before |
| History.ObjectFromHistory | app/services/session_store.py:45-126 | a legal log determines the atomic object without replaying it: who was made, with what and when, who has gone, by the first deletion or the expiry, and by which entry, if any, a session was won |
| History.AnswersFromHistory | app/routes/verify.py:33-85 | and each verify is answered by its past: 503, 500, 404, 409 or the result of its own vector |
| Observed.LogIsTheRun | app/services/session_store.py:58-126 | the log of a run has exactly the run's creates, deletes and lapses of time, in their order |
| Observed.CallsByHistory | app/routes/verify.py:33-85 | in every run a call is answered 503 exactly if the embedding service gave nothing, 500 exactly if its vector has no score, 404 if the session was not there at its instant, 409 if it was won, and else with the result of its own vector against the session's |
| Contents.StoreByHistory | app/services/session_store.py:58-101 | in every run Redis holds exactly the sessions made and not gone, each with the texts of its create request in their fields, nothing of Bob before there is a winner, the winner's name, key and rounded score after, and the expiry fixed at creation |
| Contents.StoredSessionWasCreated | app/services/session_store.py:67-77 | each of them was made by a create of the run whose name, question, vector and key are the ones stored |
| Contents.GetShows | app/routes/session.py:80-89 | GET answers 404 exactly for a session not made or gone, and else with the creator's name, the question and the phase that the session's history has |
| Contents.ConnectedTellsThePhase | app/routes/stream.py:44-53 | only a session that is there gets a stream, which announces the phase it had then |
| Guarantees.Agreement | app/routes/stream.py:57-76 | whatever result a stream on any worker reports is that of a verify call answered with it: same kind, name and key, percentage at most one off |
| Guarantees.OneWinner | app/services/session_store.py:93-101 | at most one verify call per session is ever answered PASS or FAIL |
| Guarantees.NoMixedVerdicts | app/routes/stream.py:57-76 | no run has a VERIFIED and a FAILED stream, two VERIFIED with different name or key, or a VERIFIED stream and a FAIL response, for one session |
| Guarantees.NoFailedBesidePass | app/routes/verify.py:54-85 | nor a FAILED stream and a PASS response |
| Contents.ExactNews | app/routes/verify.py:52-69 | in every run each message under way or queued, and the last chunk of each stream that ended because of one, has exactly the percentage, name and key of the winning call's response |
| Contents.CheckedNews | app/services/session_store.py:114-122 | a result told by a check is the winning call's too, the percentage by way of four decimals, equal to the response's if and only if the score is no lost tie |
| Contents.ResultOfCall | app/routes/verify.py:51-85 | a winning response has the nearest integer to a hundred times the score of its own vector, is PASS exactly from the threshold on, and then carries Alice's key |
| Guarantees.OutputLanguage | app/routes/stream.py:49-80 | every output is a prefix of retry, CONNECTED, keepalives, one terminal event; a stream that ended by itself has exactly the whole pattern, and its end fits the phase it announced |
| Contents.OutputChunkByChunk | app/routes/stream.py:49-80 | chunk by chunk: retry first, CONNECTED second, then only keepalives, and a terminal event at the end of a stream that ended by itself and nowhere else |
| Guarantees.NoLostResult | app/routes/stream.py:55-76 | with every message free to be dropped, no open stream still waits HEARTBEAT_SECONDS after its session got a result or went, and one opened after that ends at its first check |
| Delivery.ToldAtFirstCheck | app/routes/stream.py:50-60 | a session that is over before a stream's first check, before it was opened or in the gap after subscribing, is told by that check in every continuation: the stream never waits |
| Delivery.NoGap | app/routes/stream.py:50-66 | if the transport does not fail its worker, a stream past its first check whose session has a result has exactly that result in its queue or in flight to its worker |
| Delivery.ToldWithoutDelay | app/routes/stream.py:64-76 | under the same transport a waiting stream of a decided session can tell the result without time passing, after at most one delivery |
| Guarantees.ResultOutlived | app/services/session_store.py:112-113 | a stream is told EXPIRED of a session with a result only if the session went within HEARTBEAT_SECONDS of it, or before the stream was opened |
| OutlivedResult.ResultIsOutlived | app/routes/stream.py:66-70 | such a run: Bob wins half a second before the expiry, the message is lost, and the heartbeat finds the session gone |
| OutlivedResult.OutlivedExactly | app/routes/stream.py:66-70 | runs like that exist if and only if the TTL is positive and some vectors have a score |
| Guarantees.EndTellsTheTruth | app/services/session_store.py:108-123 | before the cap, EXPIRED is told only of a session that is gone and a result only of one that is decided |
| Guarantees.StreamsMeetTheCap | app/routes/stream.py:31-32 | a stream is over MAX_STREAM_SECONDS after it was opened and has sent at most 60 keepalives |
| Guarantees.HardCapNeedsLongSessions | app/routes/stream.py:62-78 | the hard-cap exit is taken only if the TTL exceeds 900 seconds |
| HardCap.CapReachedExactlyByLongSessions | app/routes/stream.py:62-78 | the converse as well: some run ends a stream at the cap if and only if the TTL exceeds 900 seconds |
| Guarantees.RankCountsDown | app/routes/stream.py:49-80 | every move of a stream brings it strictly nearer to its end, and no other step of the service moves it |
| Guarantees.OwnStepsBounded | app/routes/stream.py:62-78 | in every continuation a stream makes at most Rank more moves, at most 400 in all |
| Guarantees.NeverStuck | app/routes/stream.py:64-66 | while a stream is open some stream can move, now or after a lapse of time that is possible now |
| StreamsEnd.EveryStreamCanEnd | app/routes/stream.py:49-80 | after every run there is a continuation, of stream moves and lapses of time only, in which every stream has ended |
| Guarantees.QueueNeverFull | app/services/event_hub.py:76-80 | a delivery always finds an empty queue, so `queue.Full` never happens; a queue holds at most one message and that is terminal |
| Contents.WinSendsExactNews | app/services/session_store.py:39-41 | the call that wins sends, to exactly the workers that the transport does not miss, a message with its response's percentage and its request's name and key |
| Guarantees.WinIsAnnounced | app/services/session_store.py:39-41 | a script run that does not win sends and stores nothing; one that wins puts its news under way to exactly the workers that the transport does not miss |
| Guarantees.PromptDelivery | app/services/event_hub.py:75-80 | a delivery reaches exactly the subscribed streams of its session on that worker; one that waits in q.get can go on at once, tells the news and ends |
| Guarantees.Causality | app/services/session_store.py:39-40 | a message in flight or queued tells of a result that the hash already holds, unless the hash is gone |
| Guarantees.HubsEmptyAtTheEnd | app/routes/stream.py:79-80 | once every stream has ended, however it ended, every hub's registry is the empty dict |
| Guarantees.RunForward | app/services/session_store.py:32-42 | along every run the atomic object only moves forward |
| Guarantees.ReadsMoveForward | app/services/session_store.py:85-91 | between any two reads the phase stays, leaves WAITING_FOR_BOB or is gone for good; embedding, Alice's key and expiry instant do not change |
| Guarantees.StoreShape | app/services/session_store.py:67-81 | every stored hash has the fields of its phase, a score on its side of the threshold and its first expiry ahead, and terminal_event never raises on it |
| SystemProofs.KeepStep | app/services/session_store.py:45-126 | every step of the service keeps the system invariant and adds at most one entry, with the atomic object's response, to the log |
| SystemProofs.KeepRun | app/routes/verify.py:27-85 | so does every run |
| SystemProofs.FinalizeComputes | app/services/session_store.py:32-42 | the script run on a stale score gives the store, the message and the response of the atomic verify at that instant |
| SystemProofs.TerminalEventOf | app/services/session_store.py:103-123 | on a store in step with the atomic object terminal_event answers EXPIRED, nothing or the rebuilt result as the session is gone, open or decided |
| SystemProofs.AdvanceKeeps | app/routes/stream.py:49-80 | every move of a stream keeps its share of the invariant, including where it stands on the clock |
| SystemProofs.DeliveryFindsRoom | app/services/event_hub.py:76-80 | a queue registered where a message arrives is empty |
| KeyWithheld.KeyOnlyAfterPass | app/routes/session.py:85-89 | with Alice's key replaced by any other the run is still possible and every stream, message, GET answer and response stays the same, except that PASS responses of her session carry the other key |
| Decision.DecidedByScore | app/routes/verify.py:47-51 | the log holds the winner's own verify, with a vector whose score against the session's stored one is the score of the result |
| Decision.ScoresAreCosines | app/services/embedding_client.py:103-115 | with cosine scores, the score of a result is the cosine of the stored vector and the winner's logged one |
| Decision.PercentagesInRange | app/routes/verify.py:51-69 | a PASS percentage lies between the threshold's own and 100, a FAIL percentage between -100 and the threshold's |
| Rounding.Round | app/routes/verify.py:52 | the nearest integer, the even one on a tie |
| Rounding.RoundUnique | app/routes/verify.py:52 | no other integer meets that description |
| Rounding.RebuiltAgreesExactly | app/services/session_store.py:119-122 | live and rebuilt percentage are equal if and only if the score is no lost tie, and never more than one apart |
| Rounding.RebuiltCanDiffer | app/services/session_store.py:119 | 0.75496 shows 75 live and 76 rebuilt |
| Rounding.PercentMonotone | app/services/session_store.py:119 | both percentages are monotone in the score, through both roundings |
| Rounding.PercentMatchesDecision | app/routes/verify.py:51-69 | a passing score shows at least the threshold's percentage and a failing one at most, live and rebuilt; 75 is possible on both sides of 0.75 |
| Similarity.CauchySchwarz | app/services/embedding_client.py:109-115 | the inequality, for all vectors of one length |
| Similarity.CosineBounded | app/services/embedding_client.py:103-115 | for vectors of one length the score exists and lies in [-1, 1] |
| Similarity.DotOneMore | app/services/embedding_client.py:109-115 | the dot product is the sum of the products of the coordinates |
| Similarity.CosineExactly | app/services/embedding_client.py:109-115 | the score is 0 if a vector is zero, raises if else the lengths differ, and else times both norms is the dot product |
| Similarity.CosineSymmetric | app/services/embedding_client.py:103-115 | exchanging the vectors does not change the score |
| Similarity.CosineScaleInvariant | app/services/embedding_client.py:103-115 | stretching either vector by a positive factor does not change the score |
| Similarity.CosineOfUnitVectors | app/services/embedding_client.py:106-107 | on normalised vectors the score is the dot product |
| Similarity.PassWithoutRoots | app/routes/verify.py:51 | for a positive threshold, passing is a comparison of squares without roots; a zero vector never passes |
| SessionStore.UpdatedFields | app/routes/verify.py:54-68 | the hash fields that the update pairs write, one by one |
| SystemProofs.CreateRepresents | app/services/session_store.py:58-83 | the HSET and EXPIRE transaction on a fresh id puts the atomic object's new session into the store, with the request's texts in their fields and its expiry, or nothing for a TTL that is not positive |
| SystemProofs.DeleteRepresents | app/services/session_store.py:125-126 | DEL is the atomic delete, for present, gone and unknown ids |
| SystemProofs.TimeRepresents | app/services/session_store.py:79-82 | expiry is the atomic object's lapse of time |
| StoreServer.Redis.FinalizeScript | app/services/session_store.py:32-42 | in place, the script on flat arguments: -1, 0 or 1, one HSET and one PUBLISH exactly on 1 |
| StoreServer.FlatUnpacks | app/services/session_store.py:98-101 | the flat argument list unpacks to the update pairs that it was grown from |
| StoreServer.Redis.Finalize | app/services/session_store.py:93-101 | the loop that grows the arguments and the script come to one compare-and-set with the given updates and announcement |
| VerifyRoute.OthersKeep | app/services/session_store.py:39 | nothing that others do touches the embedding or Alice's key of a session that is there |
| VerifyRoute.Verify | app/routes/verify.py:27-85 | whatever others do during the embedding, hashes, messages and response are those of the whole route at one instant, the read or the script; a 503 or 500 adds nothing |
| VerifyRoute.RunScript | app/routes/verify.py:54-71 | the pairs and the event built for the score, put through finalize: 1, 0 or -1 as the session waits, is over or is not there, and exactly on 1 one message, with the nearest percentage and the request's name and key |
| VerifyRoute.AtOnceIsAtomic | app/routes/verify.py:71-85 | that instant is the atomic object's verify, and it publishes, exactly when it decides, what goes with its response on the session's channel |
| VerifyRoute.AtOncePublishes | app/routes/verify.py:52-85 | the message's percentage is the response's, the nearest integer to a hundred times the score, and it is VERIFIED exactly from the threshold on |
| Requests.Serve | app/services/session_store.py:45-126 | any sequence of create, verify, delete and lapse requests on a store object: log and responses are legal for the atomic object, the hashes represent it, and the messages are the winners' news in order |
| Requests.ReadBack | app/services/session_store.py:85-123 | on such a store get and terminal_event read off the atomic object's session, with the created texts and the winner's result in their fields |
| EventHub.ChannelRoundTrip | app/services/event_hub.py:75 | channel names and session ids correspond one to one, whatever the id contains |
| Registry.AddExact | app/services/event_hub.py:34 | setdefault and add: one pair more, no empty set |
| Registry.RemoveExact | app/services/event_hub.py:37-42 | discard and pop: one pair less, no empty set |
| Registry.EmptyWhenNoPairs | app/services/event_hub.py:41-42 | with no pair left the dict itself is empty |
| EventHub.AddThenRemove | app/routes/stream.py:50-80 | subscribe and unsubscribe together leave the registry as it was |
| EventHub.EventHub.EnsureListener | app/services/event_hub.py:44-52 | an emptied registry and one more listener exactly if this process has none, as in an uninterrupted call of the start-up machine |
| EventHub.EventHub.Subscribe | app/services/event_hub.py:31-35 | a fresh empty queue, registered for the session and nowhere else |
| EventHub.EventHub.Unsubscribe | app/services/event_hub.py:37-42 | that queue is taken out, and nothing else |
| EventHub.EventHub.FanOut | app/services/event_hub.py:75-80 | one message is offered to exactly the queues of its channel's session |
| EventStream.PlayAfterEnd | app/routes/stream.py:57-60 | after its end a stream does nothing more |
| EventStream.Get | app/routes/stream.py:65-66 | q.get blocks exactly until there is a message or HEARTBEAT_SECONDS are over |
| EventStream.Heartbeat | app/routes/stream.py:66-72 | the safety-net check and the keepalive, as the machine does them |
| EventStream.Loop | app/routes/stream.py:63-78 | the deadline-bounded loop gives the machine's output |
| EventStream.Generate | app/routes/stream.py:49-80 | for every schedule of clock, arrivals, store answers and disconnects the generator's output is the machine's, and the hub's registry is left as found |
| HubStart.KeepStep | app/services/event_hub.py:44-52 | every step of every thread and every fork keeps the start-up invariant |
| HubStart.NoLiveSubscriptionDropped | app/services/event_hub.py:31-52 | a process has at most one listener, and the reset of the registry never drops a live subscription nor keeps one of the parent's |
| HubStart.CalledRuns | app/services/event_hub.py:31-35 | one thread's uninterrupted subscribe is a run of the machine |
| HubStart.CalledStartsOnce | app/services/event_hub.py:31-52 | and leaves the registry, emptied exactly for a new process, with one subscription more, the lock free and one listener |
| RedisClient.Globals.GetRedis | app/services/redis_client.py:17-35 | builds a pool exactly if this process has none and answers with this process's own, as an uninterrupted call does in the machine |
| RedisClient.KeepStep | app/services/redis_client.py:17-35 | every step of every thread and every fork keeps the invariant of the double-checked lock |
| RedisClient.OnePoolPerProcess | app/services/redis_client.py:19-35 | under any interleaving of threads and forks a process builds at most one pool, and nobody gets a client that another process built |
| RedisClient.CalledRuns | app/services/redis_client.py:17-35 | one thread's uninterrupted get_redis is a run of the machine |
| RedisClient.CallInAnyRun | app/services/redis_client.py:17-35 | in every reachable state such a call returns this process's one client, and one pool has been built |
| EmbeddingClient.KeepStep | app/services/embedding_client.py:61-100 | every step of every caller keeps free slots plus holders equal to the bound |
| EmbeddingClient.SlotsConserved | app/services/embedding_client.py:31-32 | so does every interleaving, and a holder's release never overflows |
| EmbeddingClient.SlotsConservedFromStart | app/services/embedding_client.py:54-100 | from the module's start: a call that had a slot has two POSTs exactly if the first ended in a connection error, a 502 or a 504, and returns a vector exactly if the last one got a 200 with a successful JSON body and a vector that is not empty |
| EmbeddingClient.Worker.Move | app/services/embedding_client.py:31-32 | every step of any call on a real semaphore keeps it equal to the machine's free slots, and no release finds it at its bound |
| EmbeddingClient.Worker.Acquire | app/services/embedding_client.py:61-63 | the call gets a slot exactly if one is free when it looks, at once or after what the others do until time is up, and else gives up |
| EmbeddingClient.Worker.Attempts | app/services/embedding_client.py:65-95 | a second POST exactly after a connection error, a 502 or a 504, so never after a 503 or a timeout; a vector exactly for a 200 with a successful JSON body and a non-empty vector at the last; the last return unreachable |
| EmbeddingClient.Worker.Embed | app/services/embedding_client.py:54-100 | with any other calls at work, the call's steps are Arrive, Take, its one or two POSTs by the same conditions, Leave, or Arrive, GiveUp, and it returns the machine's result: the slot goes back on every path |
| Sse.ReadsChunks | app/routes/stream.py:36-38 | read chunk by chunk, a stream's text adds its payloads to the messages, and retry and keepalives add none |
| Sse.RoundTrip | app/routes/stream.py:36-74 | reading the text of any output gives back its payloads, in order, for every single-line encoder, and the reconnection time exactly if the output begins with it |
| PageObjects.AlicePage.Play | static/js/session.js:23-256 | Alice's page object, through its handlers, follows any sequence of steps that her page can take |
| PageObjects.BobPage.Play | static/js/session.js:260-417 | so does Bob's |
| PageObjects.AliceProjects | static/js/session.js:23-256 | what a run of pages and service does to one of Alice's pages is a sequence of that page's own steps |
| PageObjects.BobProjects | static/js/session.js:260-417 | the same for Bob's pages, which stay with the session of their link |
| PageObjects.Meet | static/js/session.js:152-168 | two page objects taken through their parts of any run end as its pages do; while Alice's listens its pair is the uploaded one, and on both pass screens of one session the keys that the handlers derived are the same |
| KeyAgreement.KeepStep | static/js/session.js:23-417 | every step of a page, its user or the service keeps both pages and the service regular |
| KeyAgreement.VerifiedIsTheWinners | static/js/session.js:152-162 | the key in any VERIFIED of a session is its winner's |
| KeyAgreement.PassIsTheWinners | static/js/session.js:382-391 | a PASS gives the session's Alice's key to the session's winner |
| KeyAgreement.PairMatchesUpload | static/js/session.js:139-168 | while her stream is open and while the key import and the derivation are pending, Alice's pair is the one whose public half she uploaded for that session, and the derivation uses it |
| KeyAgreement.PairStays | static/js/session.js:213-256 | over every step of anybody that pair stays in place as long as the page awaits the key, although reset replaces it asynchronously |
| KeyAgreement.SameKey | static/js/session.js:152-168 | with a commutative derivation, both pages on their pass screens for one session hold the same key, in every run of any number of pages |
| PageRuns.BobIsAnswered | static/js/session.js:369-416 | in every run, when the answer to a page's verify request arrives the page shows "Verification Failed" exactly for FAIL, "link expired" exactly for 404 and 409, the form to try again exactly for 503 and 500, and starts the key import exactly for PASS |
| PageRuns.FailIsTrue | static/js/session.js:397-406 | a page shows "Verification Failed" only if a call for its own session was answered FAIL |
| PageRuns.BobLooksAtSession | static/js/session.js:294-310 | what a page's GET finds is whether its session is there and waits for Bob at that moment |
| PageRuns.BobIsShown | static/js/session.js:294-319 | it then shows the challenge exactly if so, and that the link has expired exactly if not |
| PageRuns.BobGoesOn | static/js/session.js:341-416 | a click on submit exports the page's own key and hides the form; a failed export, request, import or derivation brings the form back with its button enabled, a failed GET shows that the link has expired, and a failed key pair does not keep the challenge away |
| PageRuns.AliceIsTold | static/js/session.js:148-185 | in every run FAILED takes Alice's listening page to its failure screen, EXPIRED to a form shut until a new pair is there, VERIFIED to the import of the key it carries, and CONNECTED changes nothing |
| PageRuns.AliceStartsAgain | static/js/session.js:213-256 | so do "Start New Verification" and "Try Again": no session, no channel, a shut form and a pair on its way |
| PageRuns.AliceGoesOn | static/js/session.js:93-136 | a created session leads to the waiting screen with its stream open (without one, and with the button enabled, if the page fails in between), and a failed request to the form with its button enabled |
| PageRuns.ExportsFreshKey | static/js/session.js:213-256 | in every run a click on create exports the public half of the last generated pair, and no reset lies between its generation and the click |
| PageRuns.UploadsOnce | static/js/session.js:73-135 | between any two of a page's uploads there is a newly generated pair or a request whose response was lost |
| PageRuns.NewPairExactly | static/js/session.js:73-136 | between one upload and the next there is a newly generated pair if and only if no response was lost in between; if one was, the same key is uploaded again |
| PageRuns.NextSessionNextPair | static/js/session.js:93-136 | after a page has got a session its next upload has a newly generated pair |
| PageRuns.PairUploadedTwice | static/js/session.js:130-135 | if the response of a request is lost, the retry uploads the same pair for a second session |
| HappyPath.BothCanPass | static/js/session.js:139-168 | for a positive TTL and any answer that scores at least the threshold there is a run that ends with both pages on their pass screens |
| HappyPath.CanPassExactly | static/js/session.js:346-395 | such a run exists if and only if the TTL is positive and some answer scores at least the threshold |

## Left out

- HTTP, Flask, CORS, headers, error handlers, the rate limiter and its kill switch: plumbing over libraries.
- app/utils/validators.py: taken as preconditions on request bodies; app/utils/session_id.py: ids are fresh.
- create_session: its own embedding call and its 503 come before the first store command; the challenge enters the model with its vector, and the QR code and the rounded preview are presentation.
- Floating point: numpy's float32 and `float(score) * 100` are exact reals here, so the percentages are those of exact arithmetic.
- Web Crypto, base64 and the contents of a JWK: an abstract derivation and opaque keys.
- The embedding service: it answers with any vector or not at all.
- Redis itself: connection limits, timeouts and health checks; a store read that fails in a stream ends that stream (an abort step), and one in a verify call is not modelled.
- The reconnecting outer loop of `_listen_forever`: its effect on streams is message loss; the loop itself is not modelled.
- Threads racing on the hub's dict under `flask run`: the registry theorems are about the gevent worker.
- EventSource reconnection timing: a page may hear any chunk of any stream of its session, in any order and any number of times while the source is open, which covers reconnects.
- QR images, templates, CSS, the debug panel, ui.js and sse.js: of the templates only which screen offers which button is kept; the names, questions and percentages written into them are those of the answers and events, whose contents are proved.
- Fairness of the scheduler: runs are finite here, so that streams do end is said by bounds on their moves and their age and by the runs that end them all, not by a temporal formula.

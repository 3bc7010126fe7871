# HelpForge, verified

This project models the state machines, protocols and algorithms of HelpForge, a
multi-tenant help desk with AI replies, and proves what they keep, for every input, every
run and every interleaving. Stores, clocks, language models, embeddings and pattern tables
are parameters: maps, integers and arbitrary functions. `dafny verify dfyconfig.toml`
checks everything.

| file | what it models |
|---|---|
| `Basics.dfy` | sequences, options, stable sorting, key lifetimes, Python whitespace, separators |
| `WidgetStream.dfy` | the chat widget's reader of a streamed reply, cut arbitrarily by the network; the format is a subset of section 9.2 "Server-sent events" of the WHATWG HTML Living Standard |
| `WidgetCaller.dfy`, `WidgetReply.dfy` | what the caller of that reader sees of a cut, and the round trip of a printed reply |
| `CircuitBreakers.dfy` | the chatbot circuit breaker, the database circuit breaker and the delaying bridge worker, with overlapping calls |
| `AutomationGuards.dfy`, `AutomationProtocol.dfy` | the comment automation as interleaved steps of any number of workers, and what its locks guarantee |
| `AutomationMarks.dfy`, `AutomationFinality.dfy` | its processed marks: what a check saw, and when a marked comment can be answered again |
| `AutomationCooldown.dfy`, `AutomationHaste.dfy` | its cooldown ticket by ticket, without relying on locks, and when it can be broken |
| `AutomationContinuations.dfy` | what can still happen from a state on, punctually or not, and how a worker gets to its answer |
| `AutomationScenarios.dfy` | runs that show what it does not guarantee |
| `AutomationDecision.dfy`, `AutomationHandler.dfy` | scoring, actions and the message budget of a ticket's life, one event at a time |
| `AutomationOverlap.dfy`, `AutomationLimits.dfy` | the same ticket with handlings that overlap: lost updates, the message budget and the organisation's limit |
| `RateLimiter.dfy` | the widget's sliding-window limiter, serial and with overlapping requests |
| `NonceWindow.dfy` | signed internal requests: signer, verifier, nonce store; HMAC (section 2 of RFC 2104) is an injective function |
| `Conversation.dfy`, `Escalation.dfy` | the conversation state as a fold over turns, and the escalation gate in hundredths |
| `RankFusion.dfy` | reciprocal rank fusion with exact scores, and the page boost |
| `Chunker.dfy` | whitespace normalisation, windows and chunks |
| `AgentRun.dfy` | the agent's reasoning loop, tool budget and answer checks |
| `AgentAttempts.dfy`, `AgentOverlap.dfy` | runs that share one tool counter, attempt by attempt and execution by execution, while tools change their status |
| `Metrics.dfy`, `AgentTrace.dfy` | metric keys, their emission by a run, and the reconstruction of the run from them |
| `Embedder.dfy`, `Migration.dfy`, `MigrationCache.dfy` | embedding through a cache, the re-embedding of an organisation's points, and the two together |
| `RefreshTokens.dfy` | refresh-token rotation under arbitrary interleaving |
| `AutoAssign.dfy`, `AutoAssignOverlap.dfy` | least-loaded assignment of tickets, one at a time and overlapping |

Objects that the program updates in place are classes here; their methods are proved
against functions on values, and the properties are proved about those functions over
whole runs. A run is a sequence of events folded from the left.

## Where the code and its own words differ

The model follows the code.

- The breaker's header promises one probe in the half-open state
  (`chatbot.circuit.js:20-22`); nothing limits the number of probes
  (`CircuitBreakers.HalfOpenAdmitsAll`).
- The chunking loop is meant to end with the text; with an overlap it never does once a
  text is longer than a chunk (`chunker.py:52-77`). `Chunker.StopsIff` is exact.
- The rate limiter's comment promises a random suffix on members
  (`rate_limiter.py:138-141`); there is none, so requests with one stamp are one entry, and
  no limit holds for them (`RateLimiter.EqualStampsAreUnlimited`).
- The processed check precedes the lock and is not repeated
  (`ai.automation.service.js:52` and `:60`), so a comment can be answered twice;
  `AutomationFinality.AnsweredAgainIff` says when.
- `[DONE]` ends the loop over one read and not the stream (`api.ts:95-97`).
- `agent.py:83` calls the agent free of shared state; the tool counter is shared by all
  runs, so the tool budget holds exactly as `AgentAttempts.BudgetIsKeptIff` says.
- `validator.py:132` says active tools are refreshed at every status change; they are set
  once, at start-up. The two name sets are arbitrary here, and the executor's own check
  is what keeps disabled tools from being called, except by a retry
  (`AgentAttempts.DisabledToolsAreOnlyRetried`).
- The migration is said to profit from cached vectors of the new model
  (`migration_service.py:20-21`); cache keys do not name a model, so for the lifetime of
  an entry the old model's vector is stored under the new version
  (`Embedder.OldModelIsServed`, `MigrationCache.CachedMigrationPointByPoint`).
- The retrieval step of a trace adds the memory read to a context time that already
  contains it (`traces.py:370-383`).
- Daily and weekly reset stamps are never advanced (`ticket.repo.js:310-317`).
- Logging out from all devices does not reach a rotation between its delete and its
  create (`auth.service.js:124-125`).

## Model

| member | source | states |
|---|---|---|
| `WidgetStream.SplitIsLeftmost` | frontend/widget/src/api.ts:86-87 | splitting loses nothing: joining the parts gives the text back, no part contains a blank line, and no part but the last ends in a newline |
| `WidgetStream.LeftmostSplitIsUnique` | frontend/widget/src/api.ts:86-87 | the converse: any list of parts with those properties is the split of its join, so the split has no other reading |
| `WidgetStream.SplitResumes` | frontend/widget/src/api.ts:83-87 | the split of `a + b` is the finished parts of `a` followed by the split of the unfinished part glued to `b`, even when a blank line straddles the cut |
| `WidgetStream.EveryCutMeansTheSame` | frontend/widget/src/api.ts:76-117 | if nothing with an effect follows `[DONE]`, every way of cutting the reply into reads has the effects of the whole text |
| `WidgetStream.CutIsInvisibleIff` | frontend/widget/src/api.ts:76-117 | the cut is invisible for all cuttings exactly when nothing with an effect follows the first `[DONE]`, because the `break` ends one read and not the stream |
| `WidgetStream.DeliverEvents` | frontend/widget/src/api.ts:89-116 | the inner loop delivers exactly the tokens, meta object and failure of its events on top of what came before |
| `WidgetStream.StreamMessage` | frontend/widget/src/api.ts:76-127 | the read loop calls `onToken` with the tokens of the incremental reading, in order, and returns the last meta object or the default one |
| `WidgetCaller.StreamForCaller` | frontend/widget/src/api.ts:76-127 | what the caller gets is the view of the effects: the tokens, and the last meta object unless the reply failed |
| `WidgetCaller.CallerSeesNoCutIff` | frontend/widget/src/api.ts:76-127 | the caller, who sees less than the effects, sees no cut for all cuttings exactly when after the first `[DONE]` only meta objects come, and the latest of them equals the final one at each further `[DONE]` and at the end |
| `WidgetReply.RepliesArrive` | frontend/widget/src/api.ts:76-127 | round trip: for every reply printed as frames and ended by `data: [DONE]`, under every cutting, the caller gets the trimmed data that name no meta object, in order, and the last meta object or the default one, and no failure; frames that are not data leave no trace |
| `WidgetReply.FailuresArrive` | frontend/widget/src/api.ts:98-100 | with a `data: [ERROR]` frame behind them, whatever follows, the reply fails after exactly the tokens before |
| `WidgetReply.DataMeans` | frontend/widget/src/api.ts:89-116 | a data frame means the end, a failure, a meta object or a token by its trimmed text alone |
| `WidgetReply.TrimExactly` | frontend/widget/src/api.ts:90-93 | trimming gives the text between the outer blanks, and only that |
| `WidgetReply.BlanksCompared` | frontend/widget/src/api.ts:90-93 | what JavaScript trims is what Python trims, but for five control characters and the byte order mark |
| `CircuitBreakers.CircuitBreaker.BeginFire` | services/api-gateway/src/modules/ai/bridge/chatbot.circuit.js:98-108 | a rejection carries the remaining open time and changes nothing; an admitted call turns an open breaker half open |
| `CircuitBreakers.CircuitBreaker.OnSuccess` | services/api-gateway/src/modules/ai/bridge/chatbot.circuit.js:123-138 | a completion that succeeded moves the state as the step function says, in whatever state it lands |
| `CircuitBreakers.CircuitBreaker.OnFailure` | services/api-gateway/src/modules/ai/bridge/chatbot.circuit.js:140-163 | a completion that failed moves the state as the step function says, in whatever state it lands |
| `CircuitBreakers.ReachableStates` | services/api-gateway/src/modules/ai/bridge/chatbot.circuit.js:98-163 | in every state that overlapping calls can reach: closed means fewer failures than the threshold, counted successes mean half open and below their threshold |
| `CircuitBreakers.TrailingFailuresMeans` | services/api-gateway/src/modules/ai/bridge/chatbot.circuit.js:153-157 | the length of the trailing run of failures is at least k exactly when the latest k completions all failed |
| `CircuitBreakers.OpensExactlyWhen` | services/api-gateway/src/modules/ai/bridge/chatbot.circuit.js:140-163 | a closed breaker opens at an event exactly when the latest `failureThreshold` completions all failed |
| `CircuitBreakers.RejectsExactlyWhen` | services/api-gateway/src/modules/ai/bridge/chatbot.circuit.js:86-103 | a call is rejected exactly when the breaker is open and some failure, in whichever state it landed, lies less than the recovery timeout back |
| `CircuitBreakers.WakesExactlyWhen` | services/api-gateway/src/modules/ai/bridge/chatbot.circuit.js:98-108 | an open breaker turns half open exactly at a call that begins when every failure, in whichever state it landed, is at least the recovery timeout old |
| `CircuitBreakers.ClosesExactlyWhen` | services/api-gateway/src/modules/ai/bridge/chatbot.circuit.js:123-138 | from half open, while nothing fails, the breaker is closed exactly when the successes since the last turn to half open, those so far and those to come, reach `successThreshold`, and half open until then |
| `CircuitBreakers.RemainingEndsTheTimeout` | services/api-gateway/src/modules/ai/bridge/chatbot.circuit.js:86-103 | the remaining time of a rejection ends the recovery timeout of the latest failure |
| `CircuitBreakers.HalfOpenAdmitsAll` | services/api-gateway/src/modules/ai/bridge/chatbot.circuit.js:98-108 | nothing limits the probes: after any run that leaves the breaker half open, any number of calls begin, none is rejected and the breaker stays as it is |
| `CircuitBreakers.WakingToABlockedCircuit` | services/api-gateway/src/modules/ai/bridge/chatbot.bridge.worker.js:172-183 | a delayed job that wakes to a breaker still rejecting calls proves a failure recorded after its rejection |
| `CircuitBreakers.WakesAfterTheTimeout` | services/api-gateway/src/modules/ai/bridge/chatbot.bridge.worker.js:172-183 | a rejected job wakes up exactly five seconds after the recovery timeout of the latest failure so far |
| `CircuitBreakers.DatabaseBreaker.TryExecute` | services/api-gateway/src/config/database.config.js:60-74 | admission and the turn to half open of the database breaker |
| `CircuitBreakers.DatabaseBreaker.RecordSuccess` | services/api-gateway/src/config/database.config.js:76-85 | any success closes the database breaker and clears its failures |
| `CircuitBreakers.DatabaseBreaker.RecordFailure` | services/api-gateway/src/config/database.config.js:87-103 | only infrastructure errors count; at the threshold the breaker opens unless it is open already |
| `CircuitBreakers.DatabaseClosedIff` | services/api-gateway/src/config/database.config.js:50-105 | however queries overlap, the database breaker is closed exactly while its failures are below the threshold |
| `CircuitBreakers.DatabaseCountsFailures` | services/api-gateway/src/config/database.config.js:76-98 | the database breaker counts the infrastructure errors since the last answer, and is closed exactly while they are fewer than the threshold |
| `CircuitBreakers.OtherErrorsDoNotCount` | services/api-gateway/src/config/database.config.js:87-88 | errors that are not the infrastructure's leave no trace: a run without them ends in the same state |
| `CircuitBreakers.SerialCallsCannotTell` | services/api-gateway/src/config/database.config.js:50-105 | on serial calls whose every error is an infrastructure error, and with one success enough to close, the two breakers admit the same calls and show the same states |
| `CircuitBreakers.OverlappingCallsCannotTellIff` | services/api-gateway/src/config/database.config.js:50-98 | for every sequence of unpaired events and any thresholds: both breakers are in the same mode after every prefix, and admit the same calls, exactly when each success lands in a closed breaker, or in a half-open one that closes at one success |
| `CircuitBreakers.LateSuccessTells` | services/api-gateway/src/config/database.config.js:76-85 | whatever the run, a success that lands while the chatbot breaker is open sets the two apart |
| `CircuitBreakers.OverlappingCallsCanTell` | services/api-gateway/src/config/database.config.js:76-85 | such a run exists: two overlapping calls, one failing and one succeeding, are enough |
| `AutomationGuards.ReadyKeepsDistance` | services/api-gateway/src/modules/ai/automation/ai.automation.guards.js:37-58 | the cooldown test on the last AI comment keeps 30 s to every AI comment of a chronological list |
| `AutomationGuards.AnsweredExactlyWhen` | services/api-gateway/src/modules/ai/automation/ai.automation.guards.js:15-71 | the guard layer in full: a comment is answered exactly when the organisation has AI on and its `maxAIResponses`, or five without a row, is above the ticket's count, the comment is a user's, AI is on for the ticket, every AI comment is at least 30 s old, and no agent is working on it |
| `AutomationGuards.VerdictIsFirstReason` | services/api-gateway/src/modules/ai/automation/ai.automation.guards.js:15-71 | the reason given is the first that applies, in the order of the guards |
| `AutomationProtocol.CommentsAreAnsweredOneAtATime` | services/api-gateway/src/modules/ai/automation/ai.automation.service.js:52-155 | for any interleaving of any workers in which no lock outlives its time: at most one worker per comment is between lock and release, and any two responses to one comment are at least 30 s apart |
| `AutomationProtocol.StepKeepsInv` | services/api-gateway/src/modules/ai/automation/ai.automation.service.js:52-155 | every step of every worker and of the outside world keeps the inductive invariant of locks, rows, what workers know, and spacing |
| `AutomationMarks.MarkedCommentsStayAnswered` | services/api-gateway/src/modules/ai/automation/ai.automation.service.js:52-146 | no worker that made its processed check after a mark was written, while the mark lived, ever stores a response; holds without any assumption on locks |
| `AutomationMarks.OnlyAnsweredCommentsAreMarked` | services/api-gateway/src/modules/ai/automation/ai.automation.service.js:139-143 | in every run a comment is marked only after an answer to it was stored |
| `AutomationFinality.AnsweredAgainIff` | services/api-gateway/src/modules/ai/automation/ai.automation.service.js:52-146 | in every reachable state whose mark outlives a lock and a cooldown: some continuation answers the marked comment again before the mark expires exactly when some worker past the processed check may still answer it; the same when runs and continuations must be punctual, where a worker inside its lock must find the cooldown over before the lock ends |
| `AutomationFinality.LiveMarksAreFinal` | services/api-gateway/src/modules/ai/automation/ai.automation.service.js:52-146 | the first half for every mark: once no worker past the check may still answer, no continuation adds a response while the mark lives |
| `AutomationContinuations.ContinuationsAreRuns` | services/api-gateway/src/modules/ai/automation/ai.automation.service.js:33-156 | continuations of a run are exactly the longer runs, punctual or not, and lead to their states |
| `AutomationContinuations.WhoStillAnswersCan` | services/api-gateway/src/modules/ai/automation/ai.automation.service.js:60-143 | a worker past the check that may still answer gets there within a lock, a cooldown and a millisecond, whatever the other workers hold |
| `AutomationCooldown.AnswersSeenKeepTheCooldown` | services/api-gateway/src/modules/ai/automation/ai.automation.guards.js:37-58 | in every run, with no assumption on locks: if the worker of a later answer read the ticket after an earlier answer was stored, the two answers of that ticket are at least 30 s apart |
| `AutomationHaste.CooldownIsBrokenIff` | services/api-gateway/src/modules/ai/automation/ai.automation.guards.js:37-58 | after any answer, while its cooldown lasts: some continuation stores another answer to the ticket before the cooldown ends exactly when a worker of the ticket has passed the guard already, or holds a passable copy whose own cooldown ends before; the same for punctual runs and continuations |
| `AutomationScenarios.CommentsCanBeAnsweredTwice` | services/api-gateway/src/modules/ai/automation/ai.automation.service.js:52-60 | at-most-once is false although no lock lapses: for every mark lifetime of at least the cooldown, a reachable state has two answers to one comment, the second checked before the mark was written and stored after it, while it lived |
| `AutomationScenarios.TicketsCanBeAnsweredWithoutCooldown` | services/api-gateway/src/modules/ai/automation/ai.automation.guards.js:37-58 | without that reading the cooldown is not kept: in a reachable state two comments of one ticket are answered at the same instant |
| `AutomationScenarios.LapsedLocksLetOthersIn` | services/api-gateway/src/modules/ai/automation/ai.automation.utils.js:307-313 | the assumption on locks is needed: one millisecond past the lock's time a second worker enters |
| `AutomationScenarios.ReachableIsClosed` | services/api-gateway/src/modules/ai/automation/ai.automation.service.js:33-156 | the scenarios are real: the states they build are reached by runs from the empty state |
| `AutomationDecision.CalculateConfidence` | services/api-gateway/src/modules/ai/automation/ai.automation.decision.js:32-110 | the running score equals the clamped sum of the eight independent factors, between 0 and 100 |
| `AutomationDecision.OneFactAtATime` | services/api-gateway/src/modules/ai/automation/ai.automation.decision.js:32-110 | what each fact by itself does to the score of a plain message |
| `AutomationDecision.FactsAddUp` | services/api-gateway/src/modules/ai/automation/ai.automation.decision.js:32-110 | all facts together move the score by the sum of what each moves it, kept between 0 and 100 |
| `AutomationDecision.CeilingIsReached` | services/api-gateway/src/modules/ai/automation/ai.automation.decision.js:32-110 | a ticket scores at most 100, 99, 89 or 79 by its priority, and some ticket does score that |
| `AutomationDecision.AutoResolvableIff` | services/api-gateway/src/modules/ai/automation/ai.automation.decision.js:119-164 | under any thresholds, tickets of a priority can be auto-resolved exactly when that is enabled with a threshold within the priority's reach; the default threshold is out of reach for URGENT only |
| `AutomationDecision.MoreConfidenceNeverActsLess` | services/api-gateway/src/modules/ai/automation/ai.automation.decision.js:119-164 | under any thresholds the action is monotone in the confidence, and an assigned ticket is never smart-assigned |
| `AutomationHandler.Automation.HandleCommentAdded` | services/api-gateway/src/modules/ai/automation/ai.automation.service.js:33-156 | uninterrupted: it responds exactly when the comment is unmarked, unlocked, a user's and past the guard; it leaves the locks as it found them and marks the comment only when it responded |
| `AutomationHandler.Automation.GenerateAndStore` | services/api-gateway/src/modules/ai/automation/ai.automation.service.js:185-282 | comment, assignment and the final update of the snapshot's row together give the answered ticket; an assignment made in between survives the update |
| `AutomationHandler.MessageBudget` | services/api-gateway/src/modules/ai/automation/ai.automation.service.js:165-304 | over the whole life of a ticket, whoever else edits it: the counter equals the number of AI comments, never passes the organisation's `maxAIResponses`, or five without a row, nor five plus the number of times AI was re-enabled |
| `AutomationHandler.TicketsStayUnresolved` | services/api-gateway/src/modules/ai/automation/ai.automation.decision.js:251-287 | for every organisation whose thresholds keep a priority out of reach, no event resolves a ticket of it; the only status change is an assignment |
| `AutomationOverlap.MessagesUnderOverlap` | services/api-gateway/src/modules/ai/automation/ai.automation.service.js:165-304 | with at most k handlings of a ticket at a time, under any interleaving with edits, failures and re-enabling: at most 3 + 2k AI comments, k more per re-enabling and one more per handling that fails before its update |
| `AutomationOverlap.BoundIsReached` | services/api-gateway/src/modules/ai/automation/ai.automation.service.js:165-304 | for every k the bound is met: 3 + 2k AI comments without failures and without re-enabling |
| `AutomationOverlap.CounterNeverExceedsComments` | services/api-gateway/src/modules/ai/automation/ai.automation.decision.js:251-254 | under any interleaving the counter never passes the number of AI comments |
| `AutomationOverlap.UpdatesAreLost` | services/api-gateway/src/modules/ai/automation/ai.automation.decision.js:251-254 | it can fall behind by any number: k handlings at once leave k AI comments and a counter of one |
| `AutomationOverlap.UninterruptedIsHandled` | services/api-gateway/src/modules/ai/automation/ai.automation.service.js:165-304 | the interleaved model without interruption is the serial handler |
| `AutomationLimits.LimitUnderOverlap` | services/api-gateway/src/modules/ai/automation/ai.automation.guards.js:23-35 | late updates can lower the counter and reopen the limit m, the organisation's `maxAIResponses` or five: with at most k handlings at a time at most k + k^2 + ... + k^m AI comments and one more per handling that fails before its update, however often AI is re-enabled |
| `AutomationLimits.GeometricEnds` | services/api-gateway/src/modules/ai/automation/ai.automation.guards.js:20-36 | without overlap that bound is the limit, and for a limit of one it is k |
| `RateLimiter.KeysAreDistinct` | services/chatbot-service/app/widget/rate_limiter.py:80-95 | address keys agree exactly on equal organisation and sanitised address, organisation keys on equal organisations, and the two kinds never meet, whatever the ids contain |
| `RateLimiter.WidgetRateLimiter.CheckAndRecord` | services/chatbot-service/app/widget/rate_limiter.py:112-147 | trim, count, then add and renew the expiry, or refuse and add nothing |
| `RateLimiter.WidgetRateLimiter.IsAllowed` | services/chatbot-service/app/widget/rate_limiter.py:63-108 | the organisation is checked and charged first, then the address; an organisation refusal leaves the address alone |
| `RateLimiter.HitKeepsKeySound` | services/chatbot-service/app/widget/rate_limiter.py:125-147 | one hit keeps every window of the key within its limit and drops no entry that still counts |
| `RateLimiter.EveryKeyStaysSound` | services/chatbot-service/app/widget/rate_limiter.py:112-147 | after every serial run the sorted set of every key holds all stamps that still count, and the key's expiry never loses one |
| `RateLimiter.PassesExactlyWhen` | services/chatbot-service/app/widget/rate_limiter.py:63-147 | after every serial run the next request passes the organisation's check exactly when fewer than 200 stamps of the last 60 s were added to its key, and then the address check exactly when fewer than 30 were |
| `RateLimiter.WindowsHoldFewStamps` | services/chatbot-service/app/widget/rate_limiter.py:63-147 | in every serial run every window of 60 s holds at most 200 different stamps of accepted requests per organisation and 30 per organisation and address, repeated stamps or not |
| `RateLimiter.OnlyEqualStampsExceed` | services/chatbot-service/app/widget/rate_limiter.py:63-147 | repeated stamps are the only way past a limit: a window with more accepted requests than its limit contains two with one stamp |
| `RateLimiter.WindowsStayWithinLimits` | services/chatbot-service/app/widget/rate_limiter.py:63-147 | so with distinct stamps every window holds at most 200 accepted requests per organisation and 30 per organisation and address |
| `RateLimiter.EqualStampsAreUnlimited` | services/chatbot-service/app/widget/rate_limiter.py:138-141 | members carry no random suffix, so with repeated stamps there is no limit at all: however many requests of one stamp come, all are accepted and all lie in one window |
| `RateLimiter.EqualStampsCollapse` | services/chatbot-service/app/widget/rate_limiter.py:138-141 | the reason: repeating an accepted stamp on a key with room changes nothing and is accepted each time |
| `RateLimiter.OvershootIsBounded` | services/chatbot-service/app/widget/rate_limiter.py:125-147 | with at most k requests between count and add, stamps repeating or not, live plus pending entries are at most limit + k - 1, in every run of one key |
| `RateLimiter.CountThenAddIsHit` | services/chatbot-service/app/widget/rate_limiter.py:112-147 | a count followed at once by its add is the check and record of the serial limiter |
| `RateLimiter.OvershootHappens` | services/chatbot-service/app/widget/rate_limiter.py:34-35 | for every limit and every k with limit + k below the window the bound is met, with every request added |
| `RateLimiter.LimitIsKeptIff` | services/chatbot-service/app/widget/rate_limiter.py:125-147 | so a key keeps its limit under at most k overlapping requests exactly when k is one |
| `NonceWindow.PayloadIsInjective` | services/chatbot-service/app/security/internal_auth.py:233-233 | the newline-joined payload determines all five parts, even when the path contains line breaks |
| `NonceWindow.SignedRequestsAreAccepted` | services/api-gateway/src/modules/ai/bridge/chatbot.bridge.worker.js:50-56 | what the signer builds with the shared secret, stamped in milliseconds, the verifier accepts exactly when the stamp is within the tolerance of its clock in microseconds and the nonce is unknown |
| `NonceWindow.PromptRequestsAreAccepted` | services/chatbot-service/app/security/internal_auth.py:212-219 | as deployed with a tolerance of at least a second, what arrives in the millisecond of its stamp is accepted exactly when its nonce is unknown |
| `NonceWindow.InternalAuth.SetIfAbsent` | services/chatbot-service/app/security/internal_auth.py:254-263 | SET NX with a lifetime: a dead key counts as absent |
| `NonceWindow.InternalAuth.VerifyHmacAndNonce` | services/chatbot-service/app/security/internal_auth.py:186-272 | headers, freshness, signature and nonce, in that order; the store changes only when the request is accepted |
| `NonceWindow.NoncesLast` | services/chatbot-service/app/security/internal_auth.py:248-263 | an accepted nonce stays stored for its whole lifetime in every later run |
| `NonceWindow.KnownExactlyWhen` | services/chatbot-service/app/security/internal_auth.py:248-263 | after every ordered run a nonce is known exactly when a request with its service and signature was accepted within a nonce's lifetime |
| `NonceWindow.AcceptedExactlyWhen` | services/chatbot-service/app/security/internal_auth.py:186-272 | the verifier in full: after every ordered run a request is accepted exactly when its headers are there, its stamp is within the tolerance, the signature is that of its parts under the service's secret, and none with its service and signature was accepted within a nonce's lifetime |
| `NonceWindow.DeployedExactlyWhen` | services/chatbot-service/app/security/internal_auth.py:212-252 | as deployed: the tolerance in whole seconds on both sides, and nonces for exactly twice as long |
| `NonceWindow.NoReplays` | services/chatbot-service/app/security/internal_auth.py:203-270 | no (service, signature) pair is accepted twice in any run when nonces live for at least twice the tolerance |
| `NonceWindow.DeployedSettingsPreventReplays` | services/chatbot-service/app/security/internal_auth.py:249-252 | the lifetime the code computes is long enough for every tolerance |
| `NonceWindow.LifetimeIsTight` | services/chatbot-service/app/security/internal_auth.py:212-252 | a correctly signed request is safe from double acceptance exactly when nonces live for at least twice the tolerance |
| `Conversation.ConversationState.TakeTurn` | services/chatbot-service/app/conversation/conversation_state.py:198-246 | the in-place update of one turn equals the turn function on the snapshot |
| `Conversation.ConversationState.MergeEntities` | services/chatbot-service/app/conversation/conversation_state.py:219-224 | the nested loops add each kind's new values in order |
| `Conversation.HistoriesAreTheLatestTurns` | services/chatbot-service/app/conversation/conversation_state.py:210-229 | after any conversation the histories are the latest twenty entries of all turns and the counter is their number |
| `Conversation.UnresolvedIsTheTrailingRun` | services/chatbot-service/app/conversation/conversation_state.py:231-235 | the unresolved counter is the length of the trailing run of turns without "respond" |
| `Conversation.StagesClimbSlowly` | services/chatbot-service/app/conversation/conversation_state.py:249-292 | stages never fall, rise by at most one a turn and lag the turn count, RESOLVING is entered only by a turn that responds, CLOSING needs five turns |
| `Conversation.StageExactlyWhen` | services/chatbot-service/app/conversation/conversation_state.py:249-292 | the stage read off the conversation: gathering from the second turn on, investigating once a later turn named an entity or called for work, resolving once a turn after that responded, closing once a turn after that wound down |
| `Conversation.EntitiesAreFirstMentions` | services/chatbot-service/app/conversation/conversation_state.py:219-224 | an entity list is the conversation's values of its kind without repetitions, in order of first mention |
| `Conversation.EntitiesOnlyGrow` | services/chatbot-service/app/conversation/conversation_state.py:219-224 | entity lists stay free of duplicates and a turn only appends to them |
| `Escalation.KeywordSignals` | services/chatbot-service/app/conversation/escalation_detector.py:196-211 | the two keyword loops with their running caps give the capped table sums and the labels in table order |
| `Escalation.Compute` | services/chatbot-service/app/conversation/escalation_detector.py:177-260 | the running score, cut after every signal, gives verdict, severity, triggers and score; verdict and severity agree; an explicit request and abuse short-circuit it |
| `Escalation.OneCriticalPattern` | services/chatbot-service/app/conversation/escalation_detector.py:79-83 | what each critical pattern alone is worth and is called; only a legal threat escalates by itself |
| `Escalation.OneAngerPattern` | services/chatbot-service/app/conversation/escalation_detector.py:85-92 | what each angry pattern alone is worth and is called; none escalates by itself |
| `Escalation.RowsAddUp` | services/chatbot-service/app/conversation/escalation_detector.py:196-211 | every matched pattern adds its own contribution, whatever else is matched |
| `Escalation.LabelsInOrder` | services/chatbot-service/app/conversation/escalation_detector.py:196-211 | the reasons are those of the matched patterns, each once, in table order |
| `Escalation.RepeatsAreCounted` | services/chatbot-service/app/conversation/escalation_detector.py:265-272 | repeats are the current intent's places among the latest six intents |
| `Escalation.CapIsInvisible` | services/chatbot-service/app/conversation/escalation_detector.py:265-272 | capping the history at twenty never changes a verdict |
| `Escalation.HistoryScores` | services/chatbot-service/app/conversation/escalation_detector.py:227-245 | what the two history signals reach together: five repeats and nine unresolved turns always escalate, and a message that matches no pattern escalates only then |
| `Escalation.HumansWaitAtMostSoLong` | services/chatbot-service/app/conversation/escalation_detector.py:183-282 | after nine turns without "respond" and five of the last six intents equal to the current one the next message escalates whatever it says; a message matching no pattern escalates exactly then |
| `RankFusion.Accumulate` | services/chatbot-service/app/rag/retriever.py:172-174 | the body of the inner loop: create the entry if new, then add the gain |
| `RankFusion.RrfMerge` | services/chatbot-service/app/rag/retriever.py:162-181 | the nested loops and the sort compute the merge function |
| `RankFusion.TallyIsAccurate` | services/chatbot-service/app/rag/retriever.py:168-174 | the dictionary holds every id once, in order of first appearance, with its first document and the sum of its gains |
| `RankFusion.SortedIsStable` | services/chatbot-service/app/rag/retriever.py:176-180 | the sort keeps all entries, orders them by score and keeps ties in their order |
| `RankFusion.MergeIsRankedUnion` | services/chatbot-service/app/rag/retriever.py:162-181 | the merged list holds each id of the union once, sorted by exact score with ties by first appearance |
| `RankFusion.WinnersComeFirst` | services/chatbot-service/app/rag/retriever.py:176-181 | of two found ids the one with the better score, or the earlier of equals, stands first |
| `RankFusion.UnanimousOrderIsKept` | services/chatbot-service/app/rag/retriever.py:162-181 | a document ahead of another in every list that contains the other comes first |
| `RankFusion.OneListIsUnchanged` | services/chatbot-service/app/rag/retriever.py:122-131 | merging a single list is the identity, so the single-list shortcut is sound |
| `RankFusion.Retrieve` | services/chatbot-service/app/rag/retriever.py:113-133 | the choice of lists, the page list twice, and the cut to `top_k`; the shortcut changes nothing when the dense ids are distinct |
| `RankFusion.EverythingIsMerged` | services/chatbot-service/app/rag/retriever.py:113-122 | what is merged is the dense search, then the keyword search, then the page's documents twice; a search without results leaves no trace |
| `RankFusion.TwiceAtRank` | services/chatbot-service/app/rag/retriever.py:119-120 | twice the gain of a rank against the gain of another rank s is decided at 60 + 2s |
| `RankFusion.PageDocumentsWin` | services/chatbot-service/app/rag/retriever.py:114-120 | a document of the page list at a rank below 60 beats every document that only one other search found |
| `RankFusion.PageBoostIff` | services/chatbot-service/app/rag/retriever.py:114-120 | exactly: against a document at rank s of one other search, a document found only on the page wins at ranks below 60 + 2s and loses from there on |
| `Chunker.NormaliseKeepsWords` | services/chatbot-service/app/rag/chunker.py:41-42 | normalising keeps the words and leaves single blanks between them and none around them |
| `Chunker.LastInIsLast` | services/chatbot-service/app/rag/chunker.py:57-57 | the boundary search finds the last period of the range, or none |
| `Chunker.SlicesCountFromTheEnd` | services/chatbot-service/app/rag/chunker.py:53-60 | slices as Python reads them: negative bounds count from the end, others stop at it |
| `Chunker.ChunkText` | services/chatbot-service/app/rag/chunker.py:28-79 | short texts are one chunk; otherwise the written loop, stopped after any number of iterations, has emitted exactly the chunks of its windows, and says whether it ended |
| `Chunker.TakeWindow` | services/chatbot-service/app/rag/chunker.py:53-75 | one iteration: the window's end, the stripped piece with its index, blank pieces skipped, the next start |
| `Chunker.WindowShape` | services/chatbot-service/app/rag/chunker.py:53-59 | a window covers something, fits the size, and ends behind the last period of its second half or, without one, at full size |
| `Chunker.WindowsCoverTheText` | services/chatbot-service/app/rag/chunker.py:52-77 | for overlap at most half the size there is a first window reaching the end; up to it starts rise, spans fit the size and neighbours share exactly the overlap |
| `Chunker.SpansRebuildTheText` | services/chatbot-service/app/rag/chunker.py:52-77 | dropping the overlap from every span after the first rebuilds the normalised text |
| `Chunker.TheTailRepeats` | services/chatbot-service/app/rag/chunker.py:74-77 | from the first window that reaches the end on, every later window is the last `overlap` characters again |
| `Chunker.StopsIff` | services/chatbot-service/app/rag/chunker.py:52-77 | the written loop stops exactly on texts no longer than a chunk or without overlap, for every size and overlap |
| `Chunker.LoopAdvancesIff` | services/chatbot-service/app/rag/chunker.py:52-77 | the bound on the overlap is exact: the loop moves forward from the start of every long text exactly when the overlap is at most half the size |
| `Chunker.NoWindowIsSkipped` | services/chatbot-service/app/rag/chunker.py:61-72 | on normalised text, for sizes of two or more and overlaps of at most half the size, no window is blank, so chunks are numbered as the windows are |
| `AgentRun.ToolExecutor.Register` | services/chatbot-service/app/agent/executor.py:67-73 | a new tool is registered as active; a taken name is refused |
| `AgentRun.ToolExecutor.SetToolStatus` | services/chatbot-service/app/agent/executor.py:81-91 | statuses of registered tools only |
| `AgentRun.ToolExecutor.Execute` | services/chatbot-service/app/agent/executor.py:252-335 | three guards, then the retry loop; counter and calls grow by the attempts made |
| `AgentRun.ToolExecutor.CallWithRetries` | services/chatbot-service/app/agent/executor.py:301-335 | the retry loop makes the attempts that the attempt function says and ends as it says |
| `AgentRun.AttemptsMeaning` | services/chatbot-service/app/agent/executor.py:301-335 | one to three attempts: all before the last are retriable errors, the last is not one or is the third, and it decides the result |
| `AgentRun.AgentValidator.Validate` | services/chatbot-service/app/agent/validator.py:68-123 | accepted exactly when fields, action, confidence range, tool name, tool input and message pass; empty name sets are skipped |
| `AgentRun.ActionNames` | services/chatbot-service/app/agent/validator.py:68-123 | the four actions and their names correspond, and nothing else is an action |
| `AgentRun.StatedDecisionsAreRead` | services/chatbot-service/app/agent/agent.py:189-203 | round trip: a decision stated as an answer is read back exactly when its confidence is a share, its message says something, and a tool call names a tool that may be asked for; otherwise the run escalates |
| `AgentRun.AnswersInFull` | services/chatbot-service/app/agent/validator.py:68-123 | what every answer comes to: escalation, an exception, or the decision it states |
| `AgentRun.RunsAreBounded` | services/chatbot-service/app/agent/agent.py:204-307 | for every sequence of model answers and tool outcomes: at most six model calls, at most five tool calls with retries, all registered and not disabled, none in a dry run, and a final action that is not a tool call |
| `AgentRun.RunsAreSound` | services/chatbot-service/app/agent/agent.py:189-307 | however the model answers, every tool a run turns to may be asked for, and its final decision has a share of confidence |
| `AgentRun.AskingIsToolCall` | services/chatbot-service/app/agent/agent.py:208-226 | only a tool call asks for a tool; one named beside another action is not called |
| `AgentRun.HopsRecordTheirCalls` | services/chatbot-service/app/agent/agent.py:233-300 | hop i holds the tool that answer i asked for, what its call took, and what the next model call took and used |
| `AgentRun.LoopEnds` | services/chatbot-service/app/agent/agent.py:208-226 | the loop alone, from any pass: the bound on model calls and the kind of the final action |
| `AgentRun.LoopStaysInBudget` | services/chatbot-service/app/agent/executor.py:266-311 | the loop keeps the tool budget from any pass on; a dry run leaves the executor as it is |
| `AgentRun.FiveToolCallsHappen` | services/chatbot-service/app/agent/executor.py:303-311 | the bound of five is met: two successes, then a tool that needs both retries |
| `AgentRun.RunFollowsAnswers` | services/chatbot-service/app/agent/agent.py:189-307 | the run read off the answers alone: the first answer that asks for no tool decides, and six requests for tools escalate; tools, tokens and times of every pass are those of the answers before it |
| `AgentRun.DecidingAnswerIsUnique` | services/chatbot-service/app/agent/agent.py:189-307 | that reading is unique: it fixes decision and passes of the run |
| `AgentRun.DryRunDecidesAlike` | services/chatbot-service/app/agent/agent.py:239-246 | a dry run reaches the decision of the real run on the same answers |
| `AgentAttempts.CallsPerStretch` | services/chatbot-service/app/agent/executor.py:252-335 | runs share the counter, and an execution awaits its tool and sleeps between attempts: for every interleaving of starts, attempts, resets and status changes of any number of runs, a run makes at most five calls for each stretch between resets in which an execution of it gets through, so at most five if no reset falls between two of those |
| `AgentAttempts.StretchBoundIsReached` | services/chatbot-service/app/agent/executor.py:252-335 | for every number n of stretches some interleaving makes 5n calls |
| `AgentAttempts.BudgetIsKeptIff` | services/chatbot-service/app/agent/agent.py:102-102 | five calls are guaranteed to runs of at most n stretches exactly when n is at most one |
| `AgentAttempts.GetsThroughExactlyWhen` | services/chatbot-service/app/agent/executor.py:266-300 | in every interleaving an execution gets through exactly when fewer than three calls were made since a run began, by whomever, and the tool is registered and was not last disabled |
| `AgentAttempts.DisabledToolsAreOnlyRetried` | services/chatbot-service/app/agent/executor.py:287-321 | the status is read once: a retry is made whatever the status has become, and only a retry reaches a tool that is disabled at that moment, one that was callable when its execution began |
| `AgentAttempts.UninterruptedIsExecuted` | services/chatbot-service/app/agent/executor.py:252-335 | an execution that nothing interrupts does what the atomic execution does |
| `AgentOverlap.BudgetUnderOverlapIff` | services/chatbot-service/app/agent/executor.py:248-335 | for executions that nothing interrupts: for every schedule of own executions, executions and resets of other runs and status changes, the run stays within five tool calls for every outcome exactly when no reset falls between two moments at which it gets to call a tool |
| `AgentOverlap.UndisturbedRunsKeepTheBudget` | services/chatbot-service/app/agent/executor.py:248-335 | for executions that nothing interrupts: a run none of whose turns are separated by a reset keeps the budget, whatever other runs call and whichever tools change their status |
| `AgentOverlap.UndisturbedIff` | services/chatbot-service/app/agent/executor.py:248-335 | for executions that nothing interrupts, with callable tools and resets only, that is also necessary |
| `AgentOverlap.OverlappingRunsExceedTheBudget` | services/chatbot-service/app/agent/agent.py:102-102 | such a schedule exists: call, reset by another run, call |
| `AgentOverlap.CallsReachCallableTools` | services/chatbot-service/app/agent/executor.py:266-311 | for executions that nothing interrupts, while tools change their status between them: each turn adds at most three calls, of the tool it names, which is registered and not disabled at that moment |
| `AgentOverlap.RunIsASchedule` | services/chatbot-service/app/agent/agent.py:204-307 | the reasoning loop's calls are such a schedule: at most five turns, with the same effect on the executor |
| `Metrics.MetricsCollector.Stop` | services/chatbot-service/app/observability/metrics.py:51-58 | a started timer leaves its duration under its key, in first-stop order; one never started leaves no trace |
| `Metrics.DecimalIsInjective` | services/chatbot-service/app/agent/agent.py:237-237 | different step numbers print differently |
| `Metrics.ToolKeyEnds` | services/chatbot-service/app/observability/traces.py:533-542 | a tool key ends in the suffix of step j exactly when it was printed for step j, whatever the tool is called |
| `AgentTrace.TimingsAreDistinct` | services/chatbot-service/app/agent/agent.py:136-283 | all timer keys of a run are different, for any tool names |
| `AgentTrace.Parse` | services/chatbot-service/app/agent/agent.py:396-433 | bad JSON and rejected decisions become the fallback; what passes the checks and does not fit the schema raises |
| `AgentTrace.UseTool` | services/chatbot-service/app/agent/agent.py:236-256 | one timed tool call, or its simulation |
| `AgentTrace.Ask` | services/chatbot-service/app/agent/agent.py:273-293 | one timed model call with its tokens; a failed call records nothing |
| `AgentTrace.Pass` | services/chatbot-service/app/agent/agent.py:208-295 | one pass of the loop leaves exactly the run that is still to come, or ends it at the step limit or at an exception |
| `AgentTrace.Reason` | services/chatbot-service/app/agent/agent.py:204-307 | the reasoning loop computes the loop function and records exactly its passes |
| `AgentTrace.BuildContext` | services/chatbot-service/app/agent/agent.py:343-392 | timers of the context appear in the order in which they stop |
| `AgentTrace.Run` | services/chatbot-service/app/agent/agent.py:96-339 | a run decides as the run function says, resets and then charges the executor, turns every exception into the fallback, and carries metrics exactly when it finished |
| `AgentTrace.BuildSteps` | services/chatbot-service/app/observability/traces.py:336-444 | the loop over agent steps computes the step function, numbering as it goes |
| `AgentTrace.PromptIsSevenTenths` | services/chatbot-service/app/observability/traces.py:177-178 | prompt tokens are seven tenths of the total, with the fraction cut off |
| `AgentTrace.ParsingUndoesPrinting` | services/chatbot-service/app/observability/traces.py:545-554 | parsing a printed tool key gives the tool name back, underscores and all |
| `AgentTrace.FindsToolKey` | services/chatbot-service/app/observability/traces.py:533-542 | the first matching key for a step is that step's own key |
| `AgentTrace.TraceUndoesEmission` | services/chatbot-service/app/observability/traces.py:336-444 | for every finished run the tracer recovers from the flat keys exactly the guards, the retrieval step, and the tool and model calls with names, times and tokens; the retrieval time counts the memory read twice, as the code does |
| `AgentTrace.TraceTellsTheRun` | services/chatbot-service/app/observability/traces.py:208-274 | the trace names the tools in the order called and the tokens of every model call; its total is prompt plus completion; steps are numbered from zero |
| `Embedder.Embedder.ReadCache` | services/chatbot-service/app/embeddings/embedder.py:58-65 | hits are filled in by position and the misses listed in order |
| `Embedder.Embedder.EmbedMany` | services/chatbot-service/app/embeddings/embedder.py:47-85 | the call and its cache writes, for any gateway answer, including a short one and none |
| `Embedder.EmbedsAsThePlainMapIff` | services/chatbot-service/app/embeddings/embedder.py:47-85 | the call is the plain map exactly when every hit holds the vector of its own text, for every mix of hits, misses and repeats |
| `Embedder.CacheIsInvisibleIff` | services/chatbot-service/app/embeddings/embedder.py:37-85 | under one model and from an empty cache every call of every run is the plain map exactly when texts that share a key share a vector |
| `Embedder.OldModelIsServed` | services/chatbot-service/app/embeddings/embedder.py:37-39 | keys do not name the model: while an entry lives a new model's call answers with the old vector |
| `Migration.VectorStore.ScrollAll` | services/chatbot-service/app/vectorstore/qdrant_store.py:255-273 | the cursor loop returns every matching point once, in store order, for every page size |
| `Migration.VectorStore.ScrollStaleChunks` | services/chatbot-service/app/vectorstore/qdrant_store.py:233-273 | exactly the points without the version, in order |
| `Migration.VectorStore.Upsert` | services/chatbot-service/app/vectorstore/qdrant_store.py:91-107 | known ids are replaced in place and new ones added, one after the other |
| `Migration.UpsertInPlace` | services/chatbot-service/app/vectorstore/qdrant_store.py:91-107 | upserting points with known, distinct ids replaces those and touches no other |
| `Migration.UpsertKeepsAndAdds` | services/chatbot-service/app/vectorstore/qdrant_store.py:91-107 | upserting any points with distinct ids: known ones keep their place, unnamed ones are untouched, and nothing but the batch is added |
| `Migration.GroupsPartition` | services/chatbot-service/app/services/migration_service.py:77-81 | grouping keeps every stale point once, in order, under distinct keys |
| `Migration.MigrationService.GroupByDocument` | services/chatbot-service/app/services/migration_service.py:77-81 | the grouping loop computes the groups |
| `Migration.MigrationService.ReEmbed` | services/chatbot-service/app/services/migration_service.py:87-127 | one group is skipped, failed or upserted under its own ids |
| `Migration.MigrationService.ReEmbedAll` | services/chatbot-service/app/services/migration_service.py:83-127 | the groups are processed in order, a failure does not stop the rest, and the counters are the points of done groups and the number of failed ones |
| `Migration.MigrationService.RunMigration` | services/chatbot-service/app/services/migration_service.py:45-142 | the run leaves the migrated store and reports its counts and status |
| `Migration.MigrationPointByPoint` | services/chatbot-service/app/services/migration_service.py:52-117 | ids and all fields but the version stay; a stale point gets the target version and the embedding of its own text unless its group had no text or failed; every other point is untouched |
| `Migration.MigrationVectors` | services/chatbot-service/app/services/migration_service.py:87-117 | whatever embed_many answers, a re-embedded point gets the vector answered at its place in its group |
| `MigrationCache.CachedMigrationPointByPoint` | services/chatbot-service/app/services/migration_service.py:97-98 | with embed_many reading and writing a given cache: a re-embedded point gets the vector of a given entry for its text that still lives when its group is read, whichever model wrote it, and the new model's vector otherwise; what the run itself wrote never shows |
| `Migration.CountsAddUp` | services/chatbot-service/app/services/migration_service.py:83-142 | found = re-embedded + skipped + failed points, and `errors` counts the failed groups |
| `Migration.ResponseMeans` | services/chatbot-service/app/services/migration_service.py:83-142 | the response counts the points of the re-embedded groups and the failed groups, and its status follows from them |
| `Migration.OutcomeExactlyWhen` | services/chatbot-service/app/services/migration_service.py:87-135 | a group is skipped exactly when none of its points has text, and otherwise fails exactly when its embedding or its upsert does |
| `Migration.RerunIsUpToDateIff` | services/chatbot-service/app/services/migration_service.py:59-95 | a rerun reports "up to date" exactly when every group was re-embedded: a group without text is no error and stays stale |
| `RefreshTokens.TokenTable.Create` | services/api-gateway/src/modules/auth/auth.repo.js:251-254 | refused on a duplicate token |
| `RefreshTokens.TokenTable.Delete` | services/api-gateway/src/modules/auth/auth.repo.js:262-265 | the delete fails exactly when the row is gone |
| `RefreshTokens.TokenTable.RefreshAlone` | services/api-gateway/src/modules/auth/auth.service.js:106-128 | a refresh with nothing in between: when it succeeds, and the table either way |
| `RefreshTokens.AloneIsTheSameRefresh` | services/api-gateway/src/modules/auth/auth.service.js:106-128 | the interleaved model run without interruption does to the table what the refresh method does |
| `RefreshTokens.EventKeepsInv` | services/api-gateway/src/modules/auth/auth.service.js:25-155 | every event of every request keeps the invariant of families |
| `RefreshTokens.OneTokenPerFamily` | services/api-gateway/src/modules/auth/auth.service.js:106-128 | under any interleaving: live tokens plus rotations between delete and create are at most one per login or registration |
| `RefreshTokens.RotationsFormChains` | services/api-gateway/src/modules/auth/auth.service.js:123-125 | each token value is exchanged at most once, is never a row again, and the rotations of a login form one unbroken chain |
| `RefreshTokens.EmptyFamiliesStayEmpty` | services/api-gateway/src/modules/auth/auth.service.js:106-155 | a login whose last token is gone and which no request is rotating never comes back, in any run |
| `RefreshTokens.LogoutAllIsFinalIff` | services/api-gateway/src/modules/auth/auth.service.js:152-155 | logging out everywhere leaves no row, and the user can have a token again without signing in exactly when a request was between its delete and its create |
| `AutoAssign.ChoiceIsSound` | services/api-gateway/src/modules/tickets/ticket.autoAssign.js:68-97 | filter, stable sort and head pick the first of the lightest eligible agents by (today, week), and nobody exactly when nobody is eligible |
| `AutoAssign.ChosenInRows` | services/api-gateway/src/modules/tickets/ticket.autoAssign.js:17-97 | read off the workload rows: of the agents with both caps open the one with the fewest tickets today, then this week, is chosen, the first of them if there are several; nobody exactly when there is none |
| `AutoAssign.Organization.FindBestAutoAssignAgent` | services/api-gateway/src/modules/tickets/ticket.autoAssign.js:61-98 | the chosen user, or none |
| `AutoAssign.Organization.Upsert` | services/api-gateway/src/modules/tickets/ticket.repo.js:303-326 | a new row is stamped now, an old row is counted up and keeps its stamps |
| `AutoAssign.Organization.AutoAssign` | services/api-gateway/src/modules/tickets/ticket.autoAssign.js:100-120 | assignment to the chosen agent; without one nothing changes |
| `AutoAssign.RowsCountTheDay` | services/api-gateway/src/modules/tickets/ticket.repo.js:303-326 | within one day that starts without rows, an agent's row holds exactly the tickets given to the agent, and its stamps count |
| `AutoAssign.RefusedIff` | services/api-gateway/src/modules/tickets/ticket.autoAssign.js:76-78 | within such a day a ticket is refused exactly when every agent has reached a cap |
| `AutoAssign.CapsHold` | services/api-gateway/src/modules/tickets/ticket.autoAssign.js:39-59 | within such a day no agent exceeds the daily or the weekly cap |
| `AutoAssign.LoadsStayBalanced` | services/api-gateway/src/modules/tickets/ticket.autoAssign.js:80-97 | within such a day no agent is more than one ticket ahead of an agent who could still take one |
| `AutoAssignOverlap.OverlapIsBounded` | services/api-gateway/src/modules/tickets/ticket.autoAssign.js:100-120 | with at most k requests between choosing and recording, in any order: no agent gets more than k tickets ahead of an agent who could still take one, and caps are passed by at most k - 1 |
| `AutoAssignOverlap.OverlapBoundIsReached` | services/api-gateway/src/modules/tickets/ticket.autoAssign.js:100-120 | for every k both bounds are met: k requests at once all go to the first agent |
| `AutoAssign.OutdatedRowsNeverCap` | services/api-gateway/src/modules/tickets/ticket.repo.js:310-317 | stamps are written once: an agent whose row is from before the period reads as load zero whatever is assigned, so caps above zero never bite again |

## Left out

- Routes, controllers, schemas, user interfaces, logging and Prometheus counters: plumbing.
- BullMQ, Prisma, Redis and Qdrant internals: they appear as maps, sorted sets, ordered lists and atomic operations; a partly applied upsert is not modelled.
- Model output, prompts, embeddings, JSON extraction and the tables of patterns: arbitrary inputs.
- Rounding of floating-point numbers: scores are hundredths or exact rationals, trace times whole hundredths of a millisecond, `0.7 * tokens` is exact; trace cost is not modelled.
- The lock store being down (a null lock), the rate limiter and the nonce check without Redis, and the switches that turn the checks off: the code gives up protection there.
- UTF-8 decoding of the widget's bytes: the stream is a sequence of characters, cut anywhere.
- Replies surviving the stream unchanged: the client trims each token, so spaces at its ends are lost.
- Lagging database replicas in the automation and in auto-assignment: a read of a row is assumed to see every write before it; refresh tokens are modelled without that assumption.
- Deletion of comments, and edits of a comment's author or time: the automation's history relies on neither.
- A `CircuitOpenError` raised inside a protected call: it would pass through the breaker uncounted.
- Guardrail texts, message bodies, dry-run traces and fallback wording of the agent.
- Daily and weekly caps across several days: nothing beyond the first period can be claimed, which `AutoAssign.OutdatedRowsNeverCap` makes precise.
- `chunk_overlap` above half of `chunk_size` for the window properties: starts can then stand still or fall before the text, as `Chunker.LoopAdvancesIff` shows; `Chunker.StopsIff` and `Chunker.ChunkText` still cover it.
- Refresh tokens repeating by chance: new token values are assumed new; access tokens and the blacklist are not part of this model.
- RankFusion.Retrieve: a negative `top_k` and the failing page search are not modelled; a search is the list it returned.
- The Redis client's copy of the breaker, reconnect delays, session memory limits, feedback trimming, analytics counts, role constants and notification de-duplication: duplicates or easy members.

# A verified model of the harness's run-bounding and stream mechanisms

This project models, in Dafny, the mechanisms that keep an agent run bounded and its streams and
payloads consistent, and proves what each of them promises over every input, run or interleaving:

- **Expensive-turn guard.** `ExpensiveTurnGuard.dfy` is the guard object and its arithmetic;
  `ExpensiveTurnHistory.dfy` shows that the pruned window decides as a guard that forgets nothing,
  and that prefill charges are conserved; `ExpensiveTurnCharges.dfy` says exactly which priced runs
  pause; `ReplayPacing.dfy` proves exactly which spacings are safe; `ExpensiveTurnPauses.dfy` is about
  the pauses themselves.
- **Leaked tool markup.** `DsmlMarkup.dfy` has the tag patterns, the recovery stages and the
  stripper. `StreamHold.dfy` and `DsmlStream.dfy` prove the streaming hold chunk-independent, and
  `DsmlStripper.dfy` for which texts exactly it is.
  `DsmlPatterns.dfy`, `DsmlTagFacts.dfy`, `DsmlPrinter.dfy`, `DsmlBlocks.dfy` and
  `DsmlRoundTrip.dfy` print documents of prose and calls in all three forms, with any mixture of
  bars, and prove that salvaging them gives the calls and the prose back. `DsmlHealing.dfy` proves
  that the stripper leaves the same prose, `DsmlOrphans.dfy` that tags of no block are taken out, and
  `DsmlCollapse.dfy` what collapsing white space keeps.
- **Agent token cache.** `AgentTokenCache.dfy` is the lock, compare and rename protocol as a
  transition system of several writers and a clock, with failing locks and dying processes, and its
  safety; `AgentTokenProgress.dfy` says when a writer fails and that it finishes otherwise.
- **One turn.** `GuardedRun.dfy` (settle race), `ToolRetry.dfy` (retry budget),
  `ToolSchedule.dfy`, `ToolScheduleHistory.dfy` and `ToolScheduleStream.dfy` (read and write
  scheduling), `WirePayload.dfy` (frozen wire prefix).
- **Loop guards.** `StableStringify.dfy`, `CanonicalForm.dfy`, `JsonScan.dfy`, `ToolSignature.dfy`,
  `RepeatedToolLoop.dfy`, `NoProgressGuard.dfy`, `LoopDetector.dfy`, `LoopDetectorPatterns.dfy`,
  `LoopDetectorHistory.dfy`.
- **Plumbing with a protocol in it.** `EventPump.dfy`, `SseFraming.dfy`, `BackgroundTaskWait.dfy`,
  `AgentLoop.dfy` and `AgentLoopHistory.dfy`.

`Common.dfy` holds options, list combinators and JavaScript's trimming. Objects that the source
mutates are classes whose methods are tied to functions on a state value (`Step`, `Next`,
`Apply`, ...); runs and interleavings are then sequences of calls or events over those functions.
What the environment decides (clock readings, model replies, tool outcomes, lock grants, answers of
text classifiers) is an arbitrary input.

## Where the code and its documentation differ

The model follows the code. Each difference is stated by a lemma:

- The loop detector says that three nudges without a write break the loop. Any call answered `ok`
  also clears the streak, so five probes and one neutral call can be repeated for ever
  (`NudgedForever`). The third hit without a write is a break if and only if no quiet call came between
  the three (`ThreeNudgesBreakExactly`).
- The repeated-call policy says that only a call that keeps failing is stopped. Successes are
  counted too: the first failure after five identical successes stops the run (`OneFailureEndsAPoll`,
  with `StopsExactly` for what does hold).
- Salvaged calls are documented as being in order. They come back form by form: DSML, bare, then
  tool_call (`TextOrderExactly`).
- A substantive turn is said to break a tool-calling spin. Only high-prefill turns are summed, so
  one served from the cache does not (`CachedSubstantiveTurnDoesNotHelp`, `ToolSpinPausesExactly`).
- A guarded tool run cleans up when it is settled. A handler that throws before it returns a promise
  rejects the call without settling it, and leaves its watchdog and listener behind
  (`CleansUpExactly`).
- The hold is said not to depend on the chunks. It does for a text with an opener whose word goes on,
  such as `a  <invokes`: whole it is emitted as it is, cut after `<invoke` it loses a blank
  (`BoundaryCutLoses`, `HoldDependsOnTheCut`). Every cut of a text is exact if and only if the stripper
  leaves alone each piece that a cut can present to it (`DsmlStripper.ExactForEveryCut`); the opener
  alone loses nothing (`SpacelessIsExact`).
- A truncated visible answer is announced as an incomplete terminal. It is extended, in a row of them,
  as long as no more than eight extensions and thinking recoveries together have been given since the
  last compaction (`TruncatedResultsGoOnExactly`).
- Recovery counters are described per run. The thinking counter restarts at every compaction, so a run
  of three thinking recoveries per compaction is possible and the most there is (`RecoveriesAreBudgeted`,
  `BudgetIsReached`). A limit on a whole run holds only where the turn cap implies it
  (`PerRunLimitExactly`).

## Model

| member | source | states |
|---|---|---|
| ExpensiveTurnGuard.Guard.Record | src/agent/expensive-turn-guard.ts:421-477 | the fields after `record` and its decision are those of the step function, on every path |
| ExpensiveTurnGuard.Guard.Push | src/agent/expensive-turn-guard.ts:426-439 | charging, storing, counting and pruning a sample, in that order |
| ExpensiveTurnGuard.Guard.Judge | src/agent/expensive-turn-guard.ts:440-476 | the threshold test, the exponential pause and the notification cooldown |
| ExpensiveTurnGuard.Guard.Reset | src/agent/expensive-turn-guard.ts:484-489 | everything starts afresh except the monotonic total |
| ExpensiveTurnGuard.Guard.ExpensiveSamplesInWindow | src/agent/expensive-turn-guard.ts:396-402 | the admission query counts the sterile samples still in the window |
| ExpensiveTurnGuard.Guard.MsUntilExpensiveSampleExpiry | src/agent/expensive-turn-guard.ts:410-419 | the wait until the oldest counted sample leaves, 0 when none is counted |
| ExpensiveTurnHistory.PruningLosesNothing | src/agent/expensive-turn-guard.ts:379-402 | with non-decreasing timestamps the pruning guard decides, counts and answers admission queries exactly as one that keeps every accepted sample |
| ExpensiveTurnHistory.StepRefines | src/agent/expensive-turn-guard.ts:421-440 | one `record` call of the two guards gives the same decision and keeps them related |
| ExpensiveTurnHistory.PrefillIsConserved | src/agent/expensive-turn-guard.ts:187-244 | over a growing transcript without cache telemetry, bust or cold start, the accepted charges sum to the last accepted input, whatever pauses and pruning drop and whatever the clock does |
| ExpensiveTurnHistory.ChargeBoundsExactly | src/agent/expensive-turn-guard.ts:187-244 | a charge is never negative, and exceeds input plus cache creation exactly when growth is measured from a previous input below minus that creation |
| ExpensiveTurnCharges.CostlyTurnsPause | src/agent/expensive-turn-guard.ts:215-244 | after any run, `minTurns` turns in one window, each busted or cold, with a large input and nothing to show, pause, whatever the telemetry says |
| ExpensiveTurnCharges.CheapTurnsNeverPause | src/agent/expensive-turn-guard.ts:229-236 | turns neither busted nor cold, of which the telemetry leaves less than the floor to pay for, never pause |
| ExpensiveTurnCharges.PricedRunPausesExactly | src/agent/expensive-turn-guard.ts:421-446 | in a run whose turns have telemetry or are busted or cold and produce nothing, a call pauses if and only if it is not in a pause and enough calls of its window are expensive; the pause reports exactly these |
| ExpensiveTurnCharges.PausesDouble | src/agent/expensive-turn-guard.ts:452-457 | each pause of a run is twice as long as the one before, under the cap |
| ExpensiveTurnCharges.NoticesKeepTheirDistance | src/agent/expensive-turn-guard.ts:458-465 | a pause is told to the user if and only if the cooldown has passed since the last one that was |
| ReplayPacing.PacingIsSafeExactly | src/agent/expensive-turn-guard.ts:345-355 | a spacing can never be paused in any unbounded run if and only if the guard cannot pause at all, or `minTurns` is at least 2 and the spacing is at least `minSpacingMs` |
| ReplayPacing.FewShareAWindow | src/agent/expensive-turn-guard.ts:330-335 | at the derived spacing at most `minTurns - 1` samples survive in one window, the budget that is reported |
| ReplayPacing.DisabledAsksForNothing | src/agent/expensive-turn-guard.ts:345-348 | with the guard off any spacing is safe and none is asked for |
| ExpensiveTurnPauses.PausesNeverOverlap | src/agent/expensive-turn-guard.ts:452-457 | the k-th pause lasts min(max, base * 2^k) and no later one begins before it has ended, whatever the clock does |
| ExpensiveTurnPauses.PauseIsEarned | src/agent/expensive-turn-guard.ts:439-445 | a pause reports at least `minTurns` turns, each above the cost floor and below the output floor |
| ExpensiveTurnPauses.ToolSpinPausesExactly | src/agent/expensive-turn-guard.ts:362-376 | when every high-prefill turn of the window used tools, the guard pauses if and only if there are enough of them and their outputs together stay below the floor |
| ExpensiveTurnPauses.CachedSubstantiveTurnDoesNotHelp | src/agent/expensive-turn-guard.ts:370-383 | a run from a fresh guard: three spinning turns, 5000 output tokens served from the cache, one more spinning turn, and the guard pauses |
| ExpensiveTurnPauses.WaitIsExact | src/agent/expensive-turn-guard.ts:404-419 | until the returned wait has elapsed every counted sample is still counted and their number has not fallen, and then the oldest has left |
| DsmlMarkup.SalvageDsmlToolCalls | src/agent/dsml-salvage.ts:105-146 | the method computes the salvage function: tests on the source text, three stages, collapsed white space |
| DsmlMarkup.CollectParams | src/agent/dsml-salvage.ts:75-83 | the match loop fills the object that the element scanner describes, later keys winning |
| DsmlMarkup.RunDsmlStage | src/agent/dsml-salvage.ts:117-123 | DSML calls are appended in text order and the stray DSML tags removed |
| DsmlMarkup.RunBareStage | src/agent/dsml-salvage.ts:125-134 | the same for bare calls and their stray tags |
| DsmlMarkup.RunToolCallStage | src/agent/dsml-salvage.ts:136-143 | the same for the tool_call form |
| DsmlPrinter.MatchesOwnElement | src/agent/dsml-salvage.ts:22-39 | a printed invoke or parameter element is matched whole, with its name and body, whatever follows |
| DsmlPrinter.InputIsExact | src/agent/dsml-salvage.ts:75-83 | with distinct keys the recovered object holds exactly the arguments, each text as a text and each JSON value as JSON |
| DsmlPrinter.ToldIsCoerced | src/agent/dsml-salvage.ts:62-73 | a value, with any white space around it, is read as JSON if and only if it begins as JSON does, and as its text otherwise |
| DsmlPrinter.IntentIsRead | src/agent/dsml-salvage.ts:75-83 | what is read from the printed text of a call is its name and its arguments with their types |
| DsmlBlocks.InvokeIsRead | src/agent/dsml-salvage.ts:118-129 | a printed invoke block, DSML or bare, with any attributes and padding, is read back as the call that was meant, values typed |
| DsmlBlocks.ToolCallIsRead | src/agent/dsml-salvage.ts:93-103 | a printed tool_call block, padded in any way, is read back as its call, values typed |
| DsmlBlocks.ParametersDoNotCloseTheCall | src/agent/dsml-salvage.ts:22-30 | no part of the printed parameters can be taken for the closing tag of the call |
| DsmlBlocks.LaterBlockPasses | src/agent/dsml-salvage.ts:117-143 | the tags of one stage begin nowhere in a block of a later stage |
| DsmlRoundTrip.ScanReadsStage | src/agent/dsml-salvage.ts:118-129 | scanning a document of prose and blocks finds the calls of one dialect in order and puts a space for each block, leaving the rest untouched |
| DsmlRoundTrip.UndetectedMeansAbsent | src/agent/dsml-salvage.ts:107-117 | a form whose marker test fails does not occur, so skipping its stage loses nothing |
| DsmlRoundTrip.SalvageRoundTrip | src/agent/dsml-salvage.ts:105-146 | for every document of tag-free prose and calls printed in any forms, salvage gives back every call with its typed arguments, by form and then in text order, and the prose with a space for each block, collapsed |
| DsmlRoundTrip.SalvageInOrder | src/agent/dsml-salvage.ts:56-57 | in one form, or in forms in stage order, the same calls come back in the same order |
| DsmlRoundTrip.TextOrderExactly | src/agent/dsml-salvage.ts:56-57 | different calls come back in text order if and only if no form stands before a form of an earlier stage |
| DsmlRoundTrip.ProseIsUntouched | src/agent/dsml-salvage.ts:107-112 | text without an opener is returned as it is |
| DsmlHealing.StripsToTheProse | src/agent/dsml-salvage.ts:151-167 | on such a document the stripper leaves what salvage leaves: a tidy text with exactly the words of the prose, and the prose itself if that was tidy |
| DsmlOrphans.OrphansAreTakenOut | src/agent/dsml-salvage.ts:105-146 | closing tags that close nothing and opening tags that nothing closes, of every kind and spelling, give no call and are taken out by salvage and by the stripper |
| DsmlOrphans.WordEndsExactly | src/agent/dsml-salvage.ts:40-46 | a bare tag in any spelling is markup if and only if its word ends there; otherwise the text is left alone |
| DsmlCollapse.WordsStay | src/agent/dsml-salvage.ts:85-91 | collapsing keeps the words of a text, in order and apart |
| DsmlCollapse.TidyExactly | src/agent/dsml-salvage.ts:85-91 | collapsing leaves exactly the texts without double blanks, blank lines of blanks, three newlines in a row or outer white space alone, and its results are such texts |
| DsmlCollapse.LinesAreCapped | src/agent/dsml-salvage.ts:85-91 | blanks aside, collapsing cuts each run of newlines to two and trims |
| StreamHold.IncompleteMarkerIndex | src/agent/dsml-salvage.ts:194-204 | the bounded scan finds where the longest suffix that is a proper beginning of a marker starts |
| DsmlStream.HoldDsmlStreamDelta | src/agent/dsml-salvage.ts:169-223 | the method is the hold function over the markers and tests of the source |
| DsmlStream.HoldIsChunkIndependent | src/agent/dsml-salvage.ts:206-223 | however an opener-free text is cut: emitted plus carried is the text, the carry is its longest suffix that is a proper beginning of a marker, and finishing emits the rest |
| DsmlStream.StripperStaysOutExactly | src/agent/dsml-salvage.ts:215-219 | no chunking of a text reaches the stripper if and only if the text has no opener, word boundary or not |
| StreamHold.ExactForEveryCut | src/agent/dsml-salvage.ts:206-223 | for any markers, any test and any stripper that only shortens: emitted plus carried is the text for every cut if and only if the stripper leaves alone each piece a cut can present |
| DsmlStripper.StripperShortens | src/agent/dsml-salvage.ts:151-167 | the stripper changes a text only by making it shorter |
| DsmlStripper.StripsExactly | src/agent/dsml-salvage.ts:123-142 | stripping stray tags leaves a text alone if and only if no tag head is followed by its `>` within 200 characters |
| DsmlStripper.FirstStrayGoes | src/agent/dsml-salvage.ts:123-142 | the first stray tag becomes a space, what stands before it stays, and stripping goes on after it |
| DsmlStripper.ExactForEveryCut | src/agent/dsml-salvage.ts:206-223 | with the markers, tests and stripper of the source, every cut of a text is exact if and only if the stripper leaves alone each piece a cut can present |
| DsmlStripper.BoundaryCutLoses | src/agent/dsml-salvage.ts:206-223 | two blanks before an opener whose word goes on: in one chunk the text is emitted as it is, cut after the opener it is not |
| DsmlStripper.SpacelessIsExact | src/agent/dsml-salvage.ts:206-223 | without white space, bars and closing brackets every cut is exact, openers or not |
| AgentTokenCache.RetainExactly | src/auth/agent-token-cache.ts:69-84 | for the same identity and tokens issued by now, a cached token is kept if and only if it is not older than the delivery and has not expired |
| AgentTokenCache.StepAdvances | src/auth/agent-token-cache.ts:95-108 | one step of any writer, renewals and expiry included, leaves the file, installs a strictly newer token, or puts one in place of an expired token; the principal stays |
| AgentTokenCache.PrincipalNeverChanges | src/auth/agent-token-cache.ts:63-67 | the cached principal never changes in any run, even when writers of several principals compete |
| AgentTokenCache.CacheOnlyAdvances | src/auth/agent-token-cache.ts:86-115 | in every interleaving in which no token expires while it is cached, the cached issue time never decreases, a tie keeps the first writer's token, and the principal stays |
| AgentTokenCache.FinalCacheIsNewest | src/auth/agent-token-cache.ts:86-115 | when all writers of such a run have finished, the cache holds the greatest issue time delivered or initial, as one complete record |
| AgentTokenCache.CacheIsGenuine | src/auth/agent-token-cache.ts:99-107 | what is cached is always the initial record or a delivered one |
| AgentTokenCache.MutualExclusion | src/auth/agent-token-cache.ts:40-55 | at most one writer is between taking and releasing the lock |
| AgentTokenCache.ExpiredTokenLosesItsRank | src/auth/agent-token-cache.ts:79-83 | a run of one undisturbed writer in which the cached issue time falls, because the cached token expires before the comparison |
| AgentTokenProgress.FailedExactly | src/auth/agent-token-cache.ts:86-115 | in every run a writer has failed if and only if it timed out, died, or met a record that names another principal |
| AgentTokenProgress.LoneWriterFinishes | src/auth/agent-token-cache.ts:86-115 | from any state of any run with a free lock and no other principal in the cache, a writer left alone is never stuck and finishes within five steps; the cache then has its record if the token there was unusable, expired or older, and is unchanged if not |
| AgentTokenProgress.NeverRewritten | src/auth/agent-token-cache.ts:93-98 | no token is written over itself |
| AgentTokenProgress.CachedTokenTakesNoLock | src/auth/agent-token-cache.ts:88-93 | a writer that finds its token in the file is done without asking for the lock |
| AgentTokenProgress.SeatNamesExactly | src/auth/agent-token-cache.ts:148 | seat names are one to 47 lower-case letters, digits and hyphens, with no hyphen at either end |
| AgentTokenProgress.BrokerDeliversExactly | src/auth/agent-token-cache.ts:143-163 | the boundary delivers a token if and only if the environment names its seat and no other user, and the token is a live, issued access token of that seat with the declared expiry |
| AgentTokenCache.BrokerDeliversAdmissible | src/auth/agent-token-cache.ts:143-163 | whatever the boundary lets through at some time of a run is admissible to the protocol theorems when its writer begins, then or later |
| GuardedRun.Run.constructor | src/agent/turn.ts:1137-1192 | an aborted signal cancels before the handler starts; otherwise listener and watchdog are set and the handler runs |
| GuardedRun.Run.SettleWith | src/agent/turn.ts:1151-1160 | only the first settling takes effect, and it clears the watchdog and the listener |
| GuardedRun.Run.Handle | src/agent/turn.ts:1145-1191 | abort, progress, timer and completion act as the step function says |
| GuardedRun.FirstSettlingWins | src/agent/turn.ts:1137-1192 | in every interleaving the outcome is that of the first settling event, where a timer settles only a full silent period after the last sign of life |
| GuardedRun.AbortAlwaysSettles | src/agent/turn.ts:1125-1130 | once the turn is aborted the call is settled, with no watchdog armed and no listener left, even when the handler threw synchronously |
| GuardedRun.AbortedNeverStarts | src/agent/turn.ts:1177-1180 | in a turn aborted before the call the handler is never started, whatever happens |
| GuardedRun.CleansUpExactly | src/agent/turn.ts:1151-1192 | an answered call leaves nothing behind in every interleaving if and only if it is unguarded, pre-aborted, or its handler does not throw synchronously |
| ToolRetry.ToolRetryBudget.Consume | src/agent/tool-retry.ts:125-129 | spends one attempt if there is one and says so |
| ToolRetry.ExecuteToolWithRetry | src/agent/tool-retry.ts:153-173 | returns the attempt after the transient ones the budget allows, charges the budget one per retry, and sleeps the backoff of each |
| ToolRetry.RetriesAreExact | src/agent/tool-retry.ts:148-167 | a call is retried exactly while it fails transiently and the budget lasts |
| ToolRetry.BackoffIsJittered | src/agent/tool-retry.ts:87-102 | a delay lies between 0 and the capped exponential one, which later attempts never lower and the maximum bounds |
| ToolRetry.BackoffIsExponential | src/agent/tool-retry.ts:87-102 | retry n sleeps a share of a delay that starts at the base and is multiplied by the factor each time, capped |
| ToolSchedule.Batch.OnToolUseEnd | src/agent/turn.ts:700-736 | a complete call is appended, and started at once if it is read-only, fewer than eight run and no tool is required |
| ToolSchedule.Batch.Separate | src/agent/turn.ts:1080-1091 | the loop splits the calls not started yet into reads and writes, in order |
| ToolSchedule.Batch.OnStreamEnd | src/agent/turn.ts:917-929 | truncated batches are dropped, unhonoured required tools refuse the batch, otherwise the stages begin |
| ToolSchedule.Batch.GoOn | src/agent/turn.ts:1093-1114 | in-flight reads, then the remaining reads together, then the writes one after another |
| ToolSchedule.Batch.OnFailure | src/agent/tool-retry.ts:159-172 | a transient failure is retried while the shared budget lasts, any other one is the result |
| ToolScheduleHistory.EveryCallRunsOnce | src/agent/turn.ts:1075-1115 | in a finished batch every call has started once and finished once |
| ToolScheduleHistory.ScheduleIsSafe | src/agent/turn.ts:723-735 | a write has only ever started with all reads and all earlier writes finished and nothing else begun; no call starts twice; at most eight run while the stream's calls are under way |
| ToolScheduleHistory.NeverStalls | src/agent/turn.ts:1093-1114 | until a batch is over, the stream goes on or some call is running |
| ToolScheduleHistory.AttemptsAreBounded | src/agent/tool-retry.ts:104-135 | all attempts of a turn are at most one per call and the shared budget |
| ToolScheduleHistory.ResultsAreInOrder | src/agent/turn.ts:1117-1120 | a finished batch has one result per call, in call order, each the one its call finished with |
| ToolScheduleHistory.UncheckedDispatchesNothing | src/agent/turn.ts:725-728 | a batch with a required tool has dispatched nothing while it streams or when it is refused |
| ToolScheduleHistory.TruncatedRunsNoWrites | src/agent/turn.ts:917-929 | a truncated turn has dispatched no write |
| ToolScheduleHistory.EveryCallStartsExactly | src/agent/turn.ts:1083-1085 | whatever the ids: in a finished batch each call starts once, except that one which waited for the end of the stream never starts if its id is that of a call started before; so all start once if and only if no such id is shared |
| ToolScheduleHistory.SharedIdLosesTheWrite | src/agent/turn.ts:1083-1085 | a read started in the stream and a write with its id: the batch finishes without the write |
| ToolScheduleStream.StreamDecides | src/agent/turn.ts:921-1076 | whatever order calls arrive and finish in: the batch holds the calls that arrived, or the salvaged ones if none did; it is dropped exactly if the stream broke off with calls under way, and refused exactly if a required tool was not called or another one was |
| WirePayload.ConversionAppends | src/agent/turn.ts:217-231 | conversion to chat messages, filter included, distributes over concatenation |
| WirePayload.PayloadSaysItAll | src/agent/turn.ts:217-231 | from the payload and the durations of the tool results, the roles and contents of all messages that are not notices are rebuilt, field by field |
| WirePayload.PayloadExactly | src/agent/turn.ts:189-215 | the payload is the frozen messages and the conversion of the rest exactly if the prefix freezes a part without notices and both fit the window, and the whole conversion otherwise |
| WirePayload.ConversationIsFilter | src/agent/message-provenance.ts:11-16 | returning the list itself when nothing is operational is the same as filtering |
| WirePayload.GenuinePrefixChangesNothing | src/agent/turn.ts:189-215 | with a frozen prefix that its transcript converts to, the payload is the conversion of the whole transcript, used or not |
| WirePayload.GenuineRunsOnlyAppend | src/agent/turn.ts:323-328 | from an empty or genuine prefix every payload of an append-only run begins with the one before, whatever operational messages and valve do |
| WirePayload.FrozenRunsOnlyAppend | src/agent/turn.ts:189-215 | from any frozen prefix, without operational messages in the frozen range and below the valve, every payload begins with the frozen messages and with the payload before |
| WirePayload.FallbackContinuesExactly | src/agent/turn.ts:194-212 | for a frozen prefix with as many messages as its transcript converts to, a fallback to full conversion continues what was sent if and only if the prefix was genuine |
| CanonicalForm.StringifyIsCanonical | src/agent/tool-loop-guard.ts:3-12 | two JSON values have the same text if and only if they differ in nothing but key order, at any depth |
| CanonicalForm.ReadValue | src/agent/tool-loop-guard.ts:3-12 | a text has at most one reading as a printed value followed by a delimiter |
| CanonicalForm.CanonicalIsUnique | src/agent/tool-loop-guard.ts:7-11 | a value without its key order has one representative with sorted keys |
| ToolSignature.SignatureIgnoresOrder | src/agent/tool-loop-guard.ts:14-19 | the same calls in any order, with keys in any order, have the same signature |
| ToolSignature.SignatureTellsTheCalls | src/agent/tool-loop-guard.ts:14-19 | with names of which none has a colon together with a bar or a quote, equal signatures mean the same multiset of calls up to key order, and conversely |
| ToolSignature.SingleCallIsTold | src/agent/tool-loop-guard.ts:14-19 | the signature of one call tells name and input, whatever the name |
| JsonScan.NoValueAfterColon | src/agent/tool-loop-guard.ts:3-12 | no printed value is some text, a colon and a printed value |
| ToolSignature.ColonInNameConfuses | src/agent/tool-loop-guard.ts:14-19 | with a colon and a bar in a name two calls together can share a signature with one |
| RepeatedToolLoop.CountIsTrailingRun | src/agent/tool-loop-guard.ts:96-98 | with names that SignatureTellsTheCalls covers, the count is the number of turns in a row that made the same calls as the last one, failed or not |
| RepeatedToolLoop.StopsExactly | src/agent/tool-loop-guard.ts:100-122 | a run is stopped at a turn if and only if that turn failed and its calls were made often enough in a row |
| RepeatedToolLoop.FailureIsNudgedExactly | src/agent/tool-loop-guard.ts:100-122 | a failed repeat is nudged exactly once it is made often enough in a row and until it is stopped, as one without arguments if the schema rejects it or no call has any |
| RepeatedToolLoop.SuccessIsNudgedExactly | src/agent/tool-loop-guard.ts:124-128 | a successful repeat is never stopped, and is nudged exactly from the third time on |
| RepeatedToolLoop.OneFailureEndsAPoll | src/agent/tool-loop-guard.ts:52-63 | enough identical successes make the first failure a hard stop |
| NoProgressGuard.Guard.Record | src/agent/tool-loop-guard.ts:168-187 | the loop over the calls updates the seen signatures and the counter as the step function says |
| NoProgressGuard.StuckExactly | src/agent/tool-loop-guard.ts:149-187 | `stuck` if and only if each of the last `threshold` turns made calls and every one of them had been made in an earlier turn |
| NoProgressGuard.StuckInTime | src/agent/tool-loop-guard.ts:149-187 | a run without text-only turns that uses D signatures is reported stuck by turn D * threshold + 1 |
| LoopDetector.Detector.Record | src/agent/loop-detector.ts:101-164 | history, nudge streak and verdict after `record` are those of the step function |
| LoopDetector.Detector.CountTrailingRepeats | src/agent/loop-detector.ts:207-220 | the backward loop counts the trailing run of the last signature |
| LoopDetector.Detector.CountPingPong | src/agent/loop-detector.ts:222-244 | the backward loop counts the trailing alternating pairs |
| LoopDetector.Detector.CountTrailingProbes | src/agent/loop-detector.ts:196-205 | the backward loop counts the latest run of probes, neutral records after it skipped |
| LoopDetector.Detector.ResetIfNoWrites | src/agent/loop-detector.ts:184-194 | the history is forgotten unless the turn contains a named write |
| LoopDetectorPatterns.PatternExactly | src/agent/loop-detector.ts:116-141 | a break and a warning from the calls themselves: enough equal calls at the end, or else enough alternating pairs |
| LoopDetectorPatterns.HitExactly | src/agent/loop-detector.ts:143-163 | a probe nudge counts if and only if no pattern decides the call and enough probes, but not too many, end the history |
| LoopDetectorHistory.RepeatsInWindow | src/agent/loop-detector.ts:116-129 | the repeat count of the 20-record window is the true trailing run, up to 20 |
| LoopDetectorHistory.PingPongInWindow | src/agent/loop-detector.ts:132-141 | the ping-pong count is the true number of trailing pairs, up to 10 |
| LoopDetectorHistory.ProbesInWindow | src/agent/loop-detector.ts:143-144 | after a gap of g neutral records at most 20 - g probes are still seen |
| LoopDetectorHistory.PingPongIsNoRepeat | src/agent/loop-detector.ts:222-230 | a non-zero ping-pong count forces the repeat count to be 1 |
| LoopDetectorHistory.WindowSufficesExactly | src/agent/loop-detector.ts:116-141 | the window decides as the whole history does for every history if and only if the break threshold is at most 10, or at most 20 with every call warning |
| LoopDetectorHistory.RunIsJudgedByHistory | src/agent/loop-detector.ts:101-141 | along a whole run each call that reaches a threshold is judged by the unbounded counts |
| LoopDetectorHistory.VerdictExactly | src/agent/loop-detector.ts:101-164 | every verdict of a run from the recorded calls alone: patterns, then the probe break, then a break for at least the third hit since the last write or quiet call, else a nudge |
| LoopDetectorHistory.StreakIsHits | src/agent/loop-detector.ts:149-163 | the nudge streak is the number of hits since the last write or quiet call |
| LoopDetectorHistory.ThreeNudgesBreakExactly | src/agent/loop-detector.ts:85-91 | a hit is a break if and only if three hits since the last write, itself included, came after the last quiet call |
| LoopDetectorHistory.NudgedForever | src/agent/loop-detector.ts:149-163 | five probes and one neutral call, repeated for ever, contain no write and are never broken off |
| EventPump.Pump.Next | src/android-entry.ts:361-372 | the generator from one suspension to the next, with the event it yields |
| EventPump.PumpIsSound | src/android-entry.ts:263-281 | in every interleaving yielded plus queued is what was pushed, in order, and the consumer is never asleep with an event pending or the turn done |
| EventPump.ConsumerExactly | src/android-entry.ts:357-372 | the consumer sleeps exactly if it last ran with nothing to yield and the turn still on, and leaves exactly if there is nothing to yield and the turn is done |
| EventPump.ExitIsComplete | src/android-entry.ts:361-372 | the pump leaves only after every pushed event has been yielded |
| EventPump.DrainsAfterDone | src/android-entry.ts:357-372 | in every interleaving: once the turn is done the consumer is awake or has left, and running it yields the rest of what was pushed, in order, and leaves |
| EventPump.Normalize | src/android-entry.ts:379-394 | one event per kept position: the place of the first start of a call with the content of its last |
| EventPump.OthersKeepTheirOrder | src/android-entry.ts:379-394 | events other than tool starts survive in their order |
| EventPump.StartsAreUnique | src/android-entry.ts:379-394 | each call that starts is shown once |
| SseFraming.Reader.Flush | src/local-core-protocol.ts:394-407 | one chunk delivers the events of its complete frames and leaves the rest in the buffer |
| SseFraming.Reader.Consume | src/local-core-protocol.ts:389-414 | the read loop delivers the events of the whole text and leaves what follows its last boundary |
| SseFraming.ChunkingIsIrrelevant | src/local-core-protocol.ts:394-413 | two ways to cut one text deliver the same events and leave the same buffer |
| SseFraming.FramingTheorem | src/local-core-protocol.ts:394-407 | frames rejoined with blank lines plus the buffer give the text, the buffer has no boundary, and no other cut into such frames exists |
| SseFraming.DataRoundTrip | src/local-core-protocol.ts:400-404 | lines after `data:` come back one to a line, whatever white space follows the colon, LF or CRLF ends them and other lines stand between; a frame without data has no text |
| SseFraming.EventsAreTheTexts | src/local-core-protocol.ts:400-406 | the events are the texts of the frames that have one, in order |
| BackgroundTaskWait.Controller.constructor | src/agent/background-task-wait.ts:77-85 | the budget is clamped to whole milliseconds between 0 and 610000; an aborted signal disposes at once |
| BackgroundTaskWait.Controller.Decide | src/agent/background-task-wait.ts:87-104 | the checks up to the wait, the one deadline and the remaining time |
| BackgroundTaskWait.Controller.Resume | src/agent/background-task-wait.ts:105-109 | a task ended means continue, a disposal terminate, otherwise the one nudge |
| BackgroundTaskWait.EveryCallIsAnsweredOnce | src/agent/background-task-wait.ts:87-110 | in every run each call gets one answer, unless it still waits |
| BackgroundTaskWait.CallIsAnsweredExactly | src/agent/background-task-wait.ts:87-104 | after any run: a call is told of a task that has already ended, waits exactly while tasks run and no nudge was given, and ends otherwise |
| BackgroundTaskWait.NothingEndedNothingTold | src/agent/background-task-wait.ts:87-107 | a run is told to continue only if a task has ended |
| BackgroundTaskWait.TimedOutWaitNudges | src/agent/background-task-wait.ts:105-109 | a wait that the timer ends first is answered with the nudge |
| BackgroundTaskWait.ClampExactly | src/agent/background-task-wait.ts:77-80 | the budget is rounded down to whole milliseconds, between nothing and 610000 |
| BackgroundTaskWait.EndedTaskIsReported | src/agent/background-task-wait.ts:104-107 | a task that ends a wait is the next answer, whatever timer, disposal or other events come before it |
| BackgroundTaskWait.NudgeOnlyAfterDeadline | src/agent/background-task-wait.ts:98-110 | with timers that are not early, the nudge is given only once the deadline of the run has passed |
| BackgroundTaskWait.WaitingIsBounded | src/agent/background-task-wait.ts:64-67 | over any run the waits total at most the clamped budget (plus the lateness of one timer) and at most one nudge is given |
| BackgroundTaskWait.OneDeadline | src/agent/background-task-wait.ts:102-103 | the first wait fixes the deadline of the run and every later wait is cut to end by it |
| BackgroundTaskWait.NoWaitAfterNudge | src/agent/background-task-wait.ts:98-100 | after a nudge no call waits again |
| BackgroundTaskWait.DisposedOnlyTerminates | src/agent/background-task-wait.ts:120-127 | every answer after a disposal is `terminate`, unless a task had already ended the pending wait |
| AgentLoop.RunAgent | src/agent/loop.ts:550-1320 | the turn loop and the retry loop in it end in the state that the step function gives |
| AgentLoop.CallModel | src/agent/loop.ts:630-822 | transient errors are retried without end, one overflow is compacted, anything else ends the run |
| AgentLoop.ResultsAreBounded | src/agent/loop.ts:551 | whatever the model answers, a run takes at most cap results, plus one for a model that must not answer with reasoning alone |
| AgentLoop.RunEnds | src/agent/loop.ts:551 | once that many results have been given the run is over |
| AgentLoop.ResultsDecreaseTheMeasure | src/agent/loop.ts:827-1047 | every result that does not end the run uses up a turn or the one turn-free recovery |
| AgentLoop.BoundIsReached | src/agent/loop.ts:827-853 | for every configuration, talk seats included, some run takes exactly that many results |
| AgentLoop.OneOverflowPerCall | src/agent/loop.ts:760-782 | between two results at most one overflow is answered with a compaction |
| AgentLoop.TransientsNeverEndARun | src/agent/loop.ts:784-820 | transient errors and compactions alone never end a run |
| AgentLoopHistory.AnswersGoOnExactly | src/agent/loop.ts:1238-1253 | after any run, visible answers keep it going if and only if the wait controller had it go on after each and turns are left; so a final answer ends the run |
| AgentLoopHistory.LongAnswersGoOnExactly | src/agent/loop.ts:1076-1097 | answers as long as the output cap are extended, up to eight with the thinking recoveries since the last compaction, and count as answers after that |
| AgentLoopHistory.ProgressNotesGoOnExactly | src/agent/loop.ts:1146-1168 | progress notes keep a run going twice in all, and count as answers after that |
| AgentLoopHistory.TruncatedResultsGoOnExactly | src/agent/loop.ts:1076-1097 | after any run, truncated results without a compaction keep it going if and only if it is not in plan mode, they and the extensions and thinking recoveries since the last compaction are at most eight, and turns are left |
| AgentLoopHistory.ThoughtsGoOnExactly | src/agent/loop.ts:1207-1229 | thoughts without an answer keep a run going if and only if they and what the shared counter holds are at most three and turns are left |
| AgentLoopHistory.SilencesGoOnExactly | src/agent/loop.ts:1124-1138 | results without any output are asked about twice in a run |
| AgentLoopHistory.ChatterGoesOnExactly | src/agent/loop.ts:1099-1119 | chatter that the guard stopped is answered with a prompt for a tool call twice in a run, and then ends it |
| AgentLoopHistory.DeadEndsEndTheRun | src/agent/loop.ts:1076-1236 | a stalled result, one cut off with nothing to go on from, and one that says nothing at the end end every run |
| AgentLoopHistory.EveryResultIsCovered | src/agent/loop.ts:827-1320 | every result without a compaction is of one of the kinds for which it is said how long they keep a run going |
| AgentLoopHistory.CompactionFirst | src/agent/loop.ts:505-527 | a result that compacts does what the compaction and then the result would |
| AgentLoopHistory.ToolCallsGoOnExactly | src/agent/loop.ts:1255-1320 | after any run, n results with tool calls keep it going if and only if no guard stops one and turns are left, and no counter but the turns grows |
| AgentLoopHistory.MuteResultsGoOnExactly | src/agent/loop.ts:827-853 | a model that must not think is asked once in a run for its answer, and no turn is counted for that |
| AgentLoopHistory.FaultsEndExactly | src/agent/loop.ts:760-820 | after any run: a fatal error ends it, an overflow does unless it is the first since the last result and its compaction succeeds, and nothing else does |
| AgentLoop.RecoveriesAreCounted | src/agent/loop.ts:1099-1160 | a recovery with a counter of its own happens as often as the counter says, within its limit |
| AgentLoop.CounterIsShared | src/agent/loop.ts:1076-1229 | the one counter of length extensions and thinking recoveries holds what was given of either since the last compaction: at most three thinking recoveries, eight in all |
| AgentLoop.RecoveriesAreBudgeted | src/agent/loop.ts:1076-1229 | in a run: one visible-answer, two silence, two progress and two degeneracy recoveries, and per compaction at most three thinking ones and eight with the length extensions |
| AgentLoop.BudgetIsReached | src/agent/loop.ts:1076-1229 | one run uses up both of these budgets, for every number of compactions that the turns allow |
| AgentLoop.PerRunLimitExactly | src/agent/loop.ts:1199-1229 | a limit on the thinking recoveries of a whole run holds if and only if the turn cap implies it or the seat talks |

## Left out

- ExpensiveTurnGuard.Guard.Record: the calls-per-minute and prompt-to-output ratios of a pause are diagnostics and not modelled; token counts are whole numbers, and the 5% cache comparison is exact.
- ExpensiveTurnHistory.PruningLosesNothing: needs non-decreasing timestamps, as the promise does; the pause and pacing theorems do not.
- ExpensiveTurnGuard.Guard.Judge: the same diagnostics of a pause are left out.
- AgentTokenCache.CacheOnlyAdvances: holds while no token expires in the cache, see ExpiredTokenLosesItsRank; expiry is compared in whole seconds, and locking on systems other than Linux, where the code takes none, is not modelled.
- DsmlMarkup.SalvageDsmlToolCalls: whether a value that begins as JSON parses is not distinguished, see Coerce; an opening tag that a later closing tag of another call would complete is not among the tags of `OrphansAreTakenOut`.
- DsmlMarkup.Coerce: a value that begins as JSON is kept as the text handed to the JSON parser, and a parser failure, where the code falls back to the string, is not distinguished.
- DsmlStream.HoldDsmlStreamDelta: of chunks that the stripper changes only the loss is stated; what the stripper makes of a text is stated for whole texts (`StripsToTheProse`, `OrphansAreTakenOut`).
- CanonicalForm.StringifyIsCanonical: keys are compared as sequences of characters (the source compares UTF-16 units), strings are well-formed, numbers are the texts they print as, and the special key `__proto__` is not modelled.
- LoopDetector.Detector.Record: input hashes are compared as the code compares them; tool-name canonicalisation, the command patterns and the hash function are parameters of the record.
- ToolSignature.SignatureTellsTheCalls: which sets of names with colons, bars and quotes keep signatures apart is not characterised further; ColonInNameConfuses shows that some do not.
- ToolScheduleHistory.EveryCallStartsExactly: when two calls started in the stream share an id, the code waits only for the later of them and the model for both; both have started.
- ToolSchedule.Batch.OnStreamEnd: calls salvaged from markup after a truncated batch was dropped, aborts during the stream and checkpoint failures are not modelled.
- ToolRetry.BackoffMs: delays are exact real numbers, not floating point.
- AgentLoop.RunAgent: decisions of text classifiers, guards and compaction are inputs; the hard cap is an integer, so an infinite or fractional setting of the environment is not covered.
- WirePayload.Assemble: the 98% comparison of the size valve is exact, and the length of a message's JSON is a parameter.
- GuardedRun.Run.Handle: the handler's own work goes on in the background after an abort or a timeout; only the answer is modelled.
- The execution journal of a tool call, permission prompts and hooks: their ordering across awaits is not modelled.
- Provider calls, HTTP, WebSocket and MCP plumbing, child processes, storage, compaction and token counting: input and output only.
- Text classifiers (wait intents, retryable errors, degenerate output, visible text): their answers are booleans of the environment.
- Environment parsing, logging, message texts and telemetry windows: easy or without a protocol.
- The event pump of the command-line entry point repeats the one modelled here.

# ProofGate: a verified model of the gateway's hard core

ProofGate is a gateway in front of LLM providers. This project models the parts of it that keep
state, transform streams or keep accounts, and proves what they promise over every input, every
chunking, every interleaving and every run. It is written in Dafny 4.11 and is checked with
`dafny verify dfyconfig.toml`.

| module | what it models |
|---|---|
| `Restoration` | putting originals back for placeholders, whole (`Restore`) and streamed (`StreamRestorer`) |
| `Redaction` | numbering placeholders over a whole request, merging the mappings, and the round trip |
| `Detection` | resolving overlapping hits, and detection, redaction and restoration together |
| `CheckDigits` | the Verhoeff and Luhn validators |
| `HedgeBudget`, `HedgedRace` | the decaying hedge budget and the two-way race as interleaved steps |
| `Breaker`, `Execution` | circuit breakers and the retry/failover loop |
| `Pricing`, `Budget` | cost and worst-case estimate of a call, and monthly ledgers with reservations |
| `RateLimit` | token buckets with refill, expiry and corrections |
| `AgentRun` | step limits, loop detection and cost/token counters of agent runs |
| `KeyCache`, `Leader` | epoch-guarded credential cache, and the lease-based leader |
| `Assembly`, `Anthropic` | splitting and assembling responses, streaming against whole translation |
| `Sse` | writing and reading server-sent events |
| `JsonKeys` | rejection of duplicate and case-variant JSON keys |
| `Text` | string search shared by the others |

Code that changes state step by step is a class or a method with a loop, proved against a
specification function; the theorems are about those functions and about runs of them. Concurrent
protocols (the hedged race, the key cache, the leader, the ledgers) are state machines: an action is
one atomic step, a run is any sequence of enabled actions, so a theorem about runs covers every
interleaving. Outcomes of upstream calls, the clock, the network and the context enter as parameters
over which the theorems quantify.

## Where the code does not do what one would expect

Each of these is a lemma that states exactly when the expected property holds, with an input, or a
family of inputs, for which it does not.

- `Restore` depends on the map's iteration order exactly when an original occurs inside the body of
  another placeholder (`Restoration.OrdersAgreeIff`, `Restoration.RestoreIsPassIff`; the text that
  shows it is `Trap`).
- The stream restorer recognises placeholders of up to 41 characters, one more than its constant, and
  no longer ones when a chunk ends inside them (`Restoration.StreamIsPassIff`).
- A prompt that spells out one of its own placeholders is not recovered (`Redaction.RoundTripIff`,
  `Redaction.RoundTripCanFail`).
- A hit dropped by overlap resolution may overlap no surviving hit and then stays unredacted: exactly when
  it ends before the survivor of its group starts (`Detection.TouchedIff`,
  `Detection.DroppedHitCanBeLeftBare`). It cannot happen when no hit overlaps another that loses to a
  longer one out of its reach (`Detection.NoneLeftBare`).
- A debit is refilled before it is capped: after an idle minute a debit can vanish, although the comment
  at internal/ratelimit/limiter.go:65-66 says overuse does not go unpaid (`RateLimit.DebitPaidIff`,
  `RateLimit.DebitCanVanish`). Expiry forgives a debt of more than about one capacity
  (`RateLimit.ExpiryForgivesIff`, `RateLimit.ExpiryCanForgive`).
- With a deadline every winner of a hedged race has its context cancelled, and on a plan whose first two
  targets are equal a winning hedge has (`HedgedRace.WinnersStayLiveIff`, `HedgedRace.WinnerCanBeCut`).
  A final error and the end of the context report no attempts (`HedgedRace.ReportedAttemptsIff`,
  `HedgedRace.ReportsNone`). A success is lost exactly when the context ends the race, or when another
  attempt wins and no discard function was given, which is how non-streaming calls are made at
  internal/server/exec.go:198 (`HedgedRace.SuccessLostIff`, `HedgedRace.ContextExitLeaks`,
  `HedgedRace.UndrainedLoserLeaks`).
- A limit holds in every run exactly when no settlement may exceed its reservation; the cost of a lost
  hedge does (`Budget.ExcessIff`, `Budget.HedgeCostOverruns`). The estimate is a bound exactly when
  cached input is no dearer than input (`Pricing.EstimateBoundsIff`), and with more than ten million
  output tokens only as far as `Pricing.CapHoldsIff` says (`Pricing.CapCanBeOutrun`).
- A cost is negative exactly when the cached discount exceeds the plain price of the usage by half a micro
  or more; with sane prices that takes more cached tokens than prompt tokens and a discount
  (`Pricing.CostNotNegativeIff`, `Pricing.CostNotNegative`, `Pricing.CostCanBeNegative`). The ledger then loses what its clamp at zero swallows: it is settled
  cost plus open reservations exactly when every settlement was covered (`Budget.NothingLostIff`,
  `Budget.ClampCanFire`).
- A call for a credential can receive one older than the last purge: exactly when it was fetched, not read
  from the cache, and a rotation and then a purge came between the fetch and the return; so can a call that
  asks after the purge and joins the load (`KeyCache.ReturnsOldIff`, `KeyCache.JoinsOldIff`,
  `KeyCache.InFlightLoadMayReturnOld`).
- For every lease time the leader flags of two replicas can be set at once; a flag means leadership
  exactly while the key is the replica's own (`Leader.TwoFlagsPossible`, `Leader.OneLeader`).
- A call that fails without Retry-After leaves the probe of a half-open breaker outstanding exactly when
  its error does not count against the breaker or the context ended first: a 429, a plain 400, one of the
  gateway's own errors. The breaker then admits nothing until some later call on the target succeeds,
  fails or opens it (`Execution.MarkedProbingIff`, `Execution.StrandingErrors`,
  `Execution.ProbeInRunIff`, `Breaker.OneProbe`).
- Streamed and whole translations of a message agree exactly when it has an id and calls no tool without
  arguments, which is `{}` whole and empty streamed (`Anthropic.StreamEqualsUnaryIff`,
  `Anthropic.EmptyArgumentsDiffer`). A response without an id loses its model and creation time
  (`Assembly.SplitAssembleIff`).

## Model

| member | source | states |
|---|---|---|
| Restoration.Restore | internal/guard/restore.go:9-17 | the result is that of replacing the keys, empty ones included, one after the other in some order of the map, and for independent bracketed mappings it is the single left-to-right pass |
| Restoration.EmptyKeyEverywhere | internal/guard/restore.go:14 | replacing an empty key puts the value before the text and after each of its characters |
| Restoration.RestoreIsPassIff | internal/guard/restore.go:13-15 | the result is the single pass for every text and every iteration order if and only if no original occurs in the body of another placeholder |
| Restoration.OrdersAgreeIff | internal/guard/restore.go:13-15 | any two iteration orders give the same result on every text if and only if no original occurs in the body of another placeholder |
| Restoration.RestoreInIsPass | internal/guard/restore.go:9-17 | for independent mappings every order of replacement equals the pass |
| Restoration.Fuse | internal/guard/restore.go:14 | replacing one key in the whole text and passing over the rest is one pass with that key added |
| Restoration.FragmentWasThere | internal/guard/restore.go:14 | replacement cannot complete a placeholder that was not there before |
| Restoration.DependentIsOrderBound | internal/guard/restore.go:13-15 | an original inside another placeholder's body gives a text and an order for which the result is not the pass |
| Restoration.Scan | internal/guard/restore.go:38-87 | what is held back is empty, or starts with `<`, has no `>` and is at most 40 long |
| Restoration.StreamRestorer.Process | internal/guard/restore.go:38-87 | the loop emits and holds exactly what the scan of buffer plus chunk gives, keeps the buffer invariant, and passes chunks through when there is nothing to restore |
| Restoration.AtBracket | internal/guard/restore.go:60-83 | at `<`: hold the rest, replace the token, or give up on the bracket, each as the scan prescribes, with progress |
| Restoration.StreamRestorer.Flush | internal/guard/restore.go:91-98 | empties the buffer; for bracketed mappings what is flushed is the held text unchanged |
| Restoration.HeldIsFixed | internal/guard/restore.go:95 | restoring a text without `>` changes nothing, in any order |
| Restoration.ScanIsPass | internal/guard/restore.go:38-87 | what is emitted plus the pass over what is held is the pass over the buffer, whatever text follows |
| Restoration.StreamIsPass | internal/guard/restore.go:38-98 | all outputs plus the flush equal one pass over the whole text, for every chunking and every held prefix |
| Restoration.StreamIsPassIff | internal/guard/restore.go:34-98 | chunking never shows if and only if every placeholder is at most 41 long |
| Restoration.ProcessAll | internal/guard/restore.go:38-87 | processing chunk after chunk emits what the stream specification says |
| Restoration.RestoreStream | internal/guard/restore.go:38-98 | a restorer fed any chunks and flushed emits the single pass over their concatenation |
| Redaction.PlaceholderInjective | internal/guard/redact.go:42 | kind and number can be read off a placeholder |
| Redaction.PlaceholderFits | internal/guard/restore.go:34 | counters of up to 26 digits give placeholders of at most 40 characters |
| Redaction.FirstPlaceholders | internal/guard/redact.go:42 | the first placeholder of each of the seven kinds, spelled out |
| Redaction.DecimalDenotes | internal/guard/redact.go:42 | a counter is written as the decimal numeral that denotes it, without a leading zero |
| Redaction.RedactNumbers | internal/guard/redact.go:34-47 | a text's placeholders are numbered above the counters it started with and up to those it leaves |
| Redaction.OneKeyPerMatch | internal/guard/redact.go:41-43 | the mapping of a text has as many keys as the text has matches |
| Redaction.RedactedText | internal/guard/redact.go:34-50 | the redacted text is the gaps between the matches as they are and, for each match, its placeholder numbered by the matches of its kind so far; nothing of a match is copied |
| Redaction.MatchesMapped | internal/guard/redact.go:41-44 | each match's placeholder is mapped to its value |
| Redaction.Redact | internal/guard/redact.go:21-60 | the loop computes redacted text, mapping and advanced counters as the recursive specification says |
| Redaction.RedactMessage | internal/guard/stage.go:102-113 | redacts a text, merges its mapping, and warns exactly when a key is already mapped to something else |
| Redaction.NoCollision | internal/guard/stage.go:90-95 | the keys of the next text are disjoint from all keys merged so far |
| Redaction.RedactNext | internal/guard/stage.go:86-97 | one step of the loop continues the batch and never warns |
| Redaction.Request.RedactAt | internal/guard/stage.go:101-113 | rewrites one text in place and leaves the others |
| Redaction.Request.RedactTexts | internal/guard/stage.go:75-134 | the loop rewrites all texts of a request in place with one numbering and merges all mappings, as the specification of the batch says, and never raises the collision warning |
| Redaction.HoldsAlways | internal/guard/stage.go:79-134 | the final batch keeps each text's own redaction and its own mapping |
| Redaction.PassUndoesRedact | internal/guard/redact.go:34-50 | the pass over a redacted text gives the original back, for any mapping that extends its own and keys absent from the text |
| Redaction.PassIsKeyFree | internal/guard/restore.go:9-17 | the result of a pass contains no placeholder of the mapping |
| Redaction.RoundTripIff | internal/guard/stage.go:75-134 | with the merged mapping, text `i` comes back if and only if it contained none of the request's placeholders |
| Redaction.RoundTripCanFail | internal/guard/redact.go:42-44 | a prompt with `<EMAIL_1>` in it is not recovered |
| Redaction.RequestRecovered | internal/guard/restore.go:9-98 | each text is recovered by `Restore` in every order and by the stream in every chunking |
| Redaction.ShapedNotInside | internal/guard/redact.go:42 | a value with a character no placeholder body has, or a digit string longer than the counters, occurs in no placeholder body |
| Redaction.RequestClear | internal/guard/stage.go:75-134 | with fewer than ten to the d matches, all of that shape, no original of the request can be mistaken for part of a placeholder and every placeholder fits the scanner |
| Detection.ResolveOverlaps | internal/guard/detect.go:304-321 | the loop computes the specification; the result is sorted, disjoint and taken from the hits |
| Detection.ResolvedSpans | internal/guard/detect.go:304-321 | sorted, disjoint spans, one for each group of hits that overlap in turn, and each the first of the longest of its group |
| Detection.HitsGrouped | internal/guard/detect.go:304-321 | hits fall into consecutive groups chained by overlap; each kept span is the first of the longest hits of its group |
| Detection.TouchedIff | internal/guard/detect.go:311-318 | a reported hit overlaps a surviving one if and only if it reaches past the start of its own group's survivor |
| Detection.NoneLeftBare | internal/guard/detect.go:304-321 | on the hits alone: when no hit overlaps another that loses to a longer overlapping one out of its reach, every reported hit overlaps a surviving one |
| Detection.DroppedHitCanBeLeftBare | internal/guard/detect.go:312-315 | a phone number run into an email address run into an IPv6 address stays unredacted |
| Detection.ResolvedIsDetected | internal/guard/detect.go:296-321 | resolved spans are in bounds, carry the text they span, and are sorted and disjoint |
| Detection.PipelineRecovers | internal/guard/stage.go:75-134 | whatever sorted in-bounds hits of the detectors' shapes are reported, fewer than ten to the d, a text without the request's placeholders is recovered in every order and every chunking |
| CheckDigits.TableIsGroup | internal/guard/detect.go:140-151 | the table is multiplication in the dihedral group of order ten |
| CheckDigits.RowsArePowers | internal/guard/detect.go:153-162 | each permutation row is row 1 applied to the row before it, with period eight |
| CheckDigits.AntiSymmetric | internal/guard/detect.go:140-162 | row 1 is anti-symmetric with respect to the group |
| CheckDigits.VerhoeffCatchesSubstitution | internal/guard/detect.go:178-183 | every change of one digit changes the check value, at any position and length |
| CheckDigits.VerhoeffCatchesSwap | internal/guard/detect.go:178-183 | every swap of two unequal neighbours changes the check value |
| CheckDigits.VerhoeffValid | internal/guard/detect.go:166-184 | true exactly for digits and spaces, twelve digits, check value 0 |
| CheckDigits.DigitOfChar | internal/guard/detect.go:115-116 | a digit character stands for its position in 0123456789 |
| CheckDigits.DigitsJoin | internal/guard/detect.go:113-120 | the digits of two strings in a row are those of both, rightmost first |
| CheckDigits.VerhoeffKnown | internal/guard/detect.go:178-183 | 236 has the check digit 3 and no other |
| CheckDigits.LuhnKnown | internal/guard/detect.go:124-137 | 1789372997 has the check digit 4 and no other |
| CheckDigits.LuhnCatchesSubstitution | internal/guard/detect.go:124-137 | every change of one digit changes the sum modulo ten |
| CheckDigits.LuhnCatchesSwapIff | internal/guard/detect.go:124-137 | a swap of unequal neighbours goes unnoticed if and only if they are 0 and 9 |
| CheckDigits.LuhnValid | internal/guard/detect.go:112-138 | true exactly for digits, spaces and hyphens, 13 to 19 digits, sum divisible by ten |
| CheckDigits.LuhnTotal | internal/guard/detect.go:124-136 | the loop from the right computes the alternating sum |
| CheckDigits.Collect | internal/guard/detect.go:113-120 | accepts exactly digits and separators and yields the digits in order |
| HedgeBudget.HedgesBounded | internal/router/hedge.go:28-52 | over every run, hedges allowed are at most the ratio times requests registered, despite decay |
| HedgeBudget.HedgesBoundedInStretch | internal/router/hedge.go:28-52 | the same for any stretch of a run, with what the past can lend: at most what its requests earned, and at most a window of 1000 |
| HedgeBudget.AllowedWithin | internal/router/hedge.go:28-52 | from any sound counters a run allows at most the slack plus what its requests earn |
| HedgeBudget.RunSound | internal/router/hedge.go:28-52 | every run keeps the counters sound and the slack within what was earned |
| HedgeBudget.PermitsIff | internal/router/hedge.go:47-51 | a hedge is allowed exactly while the slack at the configured ratio has room for one |
| HedgeBudget.AllowedIff | internal/router/hedge.go:28-52 | in every run of at most 1000 requests the next hedge is allowed if and only if it keeps the hedges within the ratio of the requests |
| HedgeBudget.CountersExact | internal/router/hedge.go:36-52 | until the first decay the counters are the true counts |
| HedgeBudget.DecaysTogether | internal/router/hedge.go:28-33 | past the window one more request scales both counters by the same factor |
| HedgeBudget.Budget.Request | internal/router/hedge.go:36-41 | registers one request and rescales the counters past the window |
| HedgeBudget.Budget.Allow | internal/router/hedge.go:44-52 | answers true exactly when one more hedge stays within the ratio, and then counts it |
| Breaker.ClosedIsClean | internal/router/breaker.go:46-95 | in every run a closed breaker has fewer than threshold failures and no probe outstanding |
| Breaker.ClosedIff | internal/router/breaker.go:46-95 | in every run a breaker is closed if and only if since the last success there were fewer failures than the threshold and no explicit opening |
| Breaker.TrippedUntil | internal/router/breaker.go:53-79 | a failure that trips the breaker or fails its probe keeps it shut for exactly the cooldown |
| Breaker.OpenedUntil | internal/router/breaker.go:83-95 | an explicit opening keeps a breaker without a probe shut until the later of the two deadlines |
| Breaker.UnseenAdmitted | internal/router/breaker.go:32-52 | a target never seen is admitted, with no failures and no probe |
| Breaker.ProbesApart | internal/router/breaker.go:46-95 | two probes with no success between them are at least as far apart as the cooldown or the shortest explicit opening |
| Breaker.AfterProbe | internal/router/breaker.go:46-95 | after a probe it stays outstanding or the breaker stays open for that long |
| Breaker.OneProbe | internal/router/breaker.go:53-57 | nothing is admitted after a probe while only questions and openings of no length follow, however long that takes |
| Breaker.ProbingIff | internal/router/breaker.go:46-95 | in every run the probing flag is set if and only if a probe was admitted and nothing has resolved it since |
| Breaker.AdmitsIff | internal/router/breaker.go:46-58 | in every run a call is admitted if and only if the breaker is closed, or its deadline has passed and no probe is pending |
| Breaker.Breakers.Allow | internal/router/breaker.go:46-58 | admits when closed, or the single probe once the deadline has passed |
| Breaker.Breakers.Success | internal/router/breaker.go:61-65 | closes the breaker of that target alone |
| Breaker.Breakers.Failure | internal/router/breaker.go:70-79 | counts the failure, and opens at the threshold or on a failed probe |
| Breaker.Breakers.OpenFor | internal/router/breaker.go:83-95 | extends the deadline, never shortens it, ends a probe only when it extends; other targets unchanged |
| Execution.Execute | internal/router/execute.go:80-172 | the calls made form a trace in plan order; the number reported is the number made; success only after a served call on the reported target; on exhaustion the last error with the shortest Retry-After; at least one call with a live context. With breakers there is a log of questions and calls with their ticks: each entry is asked once in plan order, refused exactly if its breaker, in the state the log gives it then, refuses at that tick and it is not the last, called only if not refused, and the breakers end as the log says |
| Execution.Visit | internal/router/execute.go:106-110 | asks the breaker, skips a refused entry unless it is the last, tries it otherwise; a probe admitted then is still outstanding afterwards exactly when every call on the entry left it so |
| Execution.Ask | internal/router/execute.go:107-110 | skips exactly when the breaker refuses in its present state at this tick and the entry is not the last |
| Execution.TryTarget | internal/router/execute.go:111-157 | the tries on one entry extend trace and log by calls of that entry only and end served, given up, used up or stopped, with the breakers as the log says; a probe outstanding before them, its deadline past, is so after them exactly when every call left it so |
| Execution.Tries | internal/router/execute.go:111-157 | the loop of those tries |
| Execution.TryLogged | internal/router/execute.go:112-151 | one try with its entry in the log |
| Execution.Try | internal/router/execute.go:112-151 | one context check and call, with its effect on trace and breakers |
| Execution.AfterFailure | internal/router/execute.go:124-151 | what a failure does to the breaker, the shortest Retry-After and the decision |
| Execution.MarkedProbingIff | internal/router/execute.go:124-145 | a failed call leaves an outstanding probe so if and only if it carries no Retry-After and does not count against the breaker or the context ended first |
| Execution.StrandingErrors | internal/router/execute.go:124-145 | a 429 or 400 without Retry-After, a gateway error, and any such error after the context ended leave a breaker that admits nothing at any time |
| Execution.ProbeLeftIff | internal/router/execute.go:111-157 | a probe survives the calls on its entry if and only if every one of them leaves it |
| Execution.ProbeInRunIff | internal/router/execute.go:106-158 | over the log of any run, a probe is outstanding after the calls on its entry if and only if each of them failed with an error that leaves it |
| Execution.WithShortest | internal/router/execute.go:160-171 | the shortest Retry-After is written into an error that can carry one |
| Execution.TraceIncreases | internal/router/execute.go:106-158 | in every trace the calls are strictly increasing in plan entry and try, hence at most max(1, MaxAttempts) per entry |
| Execution.NextCall | internal/router/execute.go:56-75 | over every trace, after a 429, 401 or 403 the next call is on a later entry; after another retryable or bare error it is the next try on the same entry while tries are left; after any other error there is none |
| Execution.LastCall | internal/router/execute.go:142-171 | a final error is the verdict itself; any other ends a run only on the last entry, a retryable one only with its tries used up |
| Execution.ExhaustedRetryAfter | internal/router/execute.go:160-171 | on exhaustion the error keeps its status and carries the least positive Retry-After of all attempts |
| Execution.CountsAgainst | internal/router/execute.go:142-145 | 401, 403 and the retried errors count against a breaker, a 429 and the other final ones do not, and none once the context has ended |
| Execution.ShortestIsMinimum | internal/router/execute.go:126-137 | the recorded Retry-After is the minimum of the positive ones seen, and one of them |
| HedgedRace.RunInv | internal/router/hedge.go:94-200 | the race invariant holds after every schedule |
| HedgedRace.StepKeeps | internal/router/hedge.go:146-199 | every action of select loop, attempts and drainer keeps the invariant |
| HedgedRace.HedgeStartsOnce | internal/router/hedge.go:148-154 | the hedge starts at most once, only when granted and only on the second target |
| HedgedRace.SendsNeverBlock | internal/router/hedge.go:108-114 | the channel never holds more than two outcomes and a finished attempt can always send |
| HedgedRace.LoserDiscardedOnce | internal/router/hedge.go:124-144 | the winner is never discarded; a loser that succeeds is discarded exactly once, when the drainer takes it |
| HedgedRace.FallbackIsUnlaunchedSuffix | internal/router/hedge.go:170-185 | the fallback gets exactly the targets that were not launched, and no success was lost |
| HedgedRace.ReceiveEnds | internal/router/hedge.go:155-186 | what taking an outcome leads to: a win, going on, the rest of the plan, a stop or exhaustion, each with its exact condition |
| HedgedRace.FallbackIff | internal/router/hedge.go:169-186 | in every schedule, when the last outcome taken is a failure, the rest of the plan is tried if and only if there is a rest and the error is not final |
| HedgedRace.FallbackReached | internal/router/hedge.go:169-185 | on every plan a primary that fails before the delay with an error that allows failover leads to the rest of the plan |
| HedgedRace.LosersCancelled | internal/router/hedge.go:175-189 | every call that ends without a winner has cancelled both attempts |
| HedgedRace.WinnerContextLiveIff | internal/router/hedge.go:70-106 | the winner's context survives if and only if there is no deadline and it is not a hedge on a plan whose first two targets are equal |
| HedgedRace.WinnersStayLiveIff | internal/router/hedge.go:158-161 | every winning schedule keeps the winner's context if and only if there is no deadline and the first two targets differ |
| HedgedRace.WinnerCanBeCut | internal/router/hedge.go:158-161 | on a plan that names one target twice a winning hedge is cancelled and the loser is not |
| HedgedRace.ReportedAttemptsIff | internal/router/hedge.go:139-197 | the attempts reported are those launched if and only if the race was not stopped by a final error or the context |
| HedgedRace.ReportsNone | internal/router/hedge.go:180-197 | on every plan a final error of the primary, or the end of the context, reports no attempt although one was launched |
| HedgedRace.SuccessLostIff | internal/router/hedge.go:124-197 | once the race is over a success is lost if and only if the context ended it, or another attempt won and there is no discard function |
| HedgedRace.ContextExitLeaks | internal/router/hedge.go:187-197 | the context exit leaves a success in the channel that nothing discards |
| HedgedRace.UndrainedLoserLeaks | internal/router/hedge.go:127-135 | without a discard function a loser that succeeds is lost |
| Pricing.EstimateMaxMicros | internal/budget/pricing.go:53-78 | exists exactly for a non-empty list of priced targets; bounds every target's estimate and is attained |
| Pricing.LargestCovers | internal/budget/pricing.go:65-77 | the estimate of a list covers each of its targets |
| Pricing.LargestAttained | internal/budget/pricing.go:65-77 | the estimate of a list is 0 or that of one of its targets |
| Pricing.CostWithinEstimate | internal/budget/pricing.go:26-78 | for non-negative prices with cached input no dearer than input, usage within the estimate costs at most the estimate |
| Pricing.EstimateBoundsIff | internal/budget/pricing.go:26-78 | for non-negative prices the estimate bounds every call within it if and only if cached input is no dearer than input |
| Pricing.EstimateTight | internal/budget/pricing.go:71-72 | a call that uses all of the estimate with nothing cached costs the estimate or one micro less |
| Pricing.CostIsBillLessDiscount | internal/budget/pricing.go:31-45 | cost is the plain price of the tokens less the cached discount, to the nearest micro |
| Pricing.UnlistedCachedPrice | internal/budget/pricing.go:32-35 | without a listed cached price cached tokens cost what plain ones do |
| Pricing.ListedCachedPrice | internal/budget/pricing.go:32-35 | a listed one replaces the input price for the cached part |
| Pricing.NegativeTokensFree | internal/budget/pricing.go:36-43 | negative token counts cost nothing |
| Pricing.RoundTies | internal/budget/pricing.go:45 | ties are rounded away from zero |
| Pricing.KnownCost | internal/budget/pricing.go:44-45 | the cost of one call, worked out |
| Pricing.CostNotNegative | internal/budget/pricing.go:26-46 | cost is not negative when cached tokens are part of the prompt |
| Pricing.CostNotNegativeIff | internal/budget/pricing.go:31-45 | a cost is not negative if and only if the cached discount is below the plain price of the usage plus half a micro |
| Pricing.CostCanBeNegative | internal/budget/pricing.go:44 | a hundred cached tokens beyond an empty prompt at half price cost minus fifty |
| Pricing.NoDiscountNoLoss | internal/budget/pricing.go:32-44 | without a discount any number of cached tokens beyond the prompt costs nothing |
| Pricing.CapHoldsIff | internal/budget/pricing.go:57-58 | every usage within the request costs at most the estimate if and only if the cap does not apply or the uncapped worst case, rounded, fits in the capped estimate |
| Pricing.CapCanBeOutrun | internal/budget/pricing.go:57-58 | twenty million output tokens cost twice the estimate |
| Budget.LedgerConserved | internal/budget/budget.go:191-307 | in every interleaving, whatever is billed, each tenant-month counter equals settled cost plus open reservations plus what the clamp swallowed, and is not negative |
| Budget.NothingLostIff | internal/budget/budget.go:48-59 | over every run the counter is settled cost plus open reservations if and only if every settlement on it was covered by what was settled and what the other calls reserved |
| Budget.AdmittedIff | internal/budget/budget.go:191-263 | in every run a budgeted call is admitted if and only if it can be quoted and settled cost, open reservations, what the clamp swallowed and the quote fit the limit |
| Budget.QuoteExact | internal/budget/budget.go:233-245 | a quote exists unless prices are required and one is missing; it is the largest estimate of any target when all are priced, and nothing otherwise |
| Budget.TotalIsBill | internal/budget/budget.go:286 | a call is charged its bill at the listed prices, to the nearest micro, and its lost hedge in full |
| Budget.SettlementMoves | internal/budget/budget.go:285-306 | a settlement moves its counter by the total in place of the reservation, down to zero at the least; without a reservation by a positive total |
| Budget.ClampNeverFires | internal/budget/budget.go:52-55 | with sane prices and cached tokens reported as part of the prompt, in every run the clamp never fires and the counter is settled cost plus open reservations |
| Budget.ClampCanFire | internal/budget/budget.go:52-55 | a negative cost from an upstream's usage leaves the counter at 0 with minus fifty settled |
| Budget.SettlesWhereReserved | internal/budget/budget.go:287-299 | settlement moves only the counter of the month that was reserved |
| Budget.LimitNeverExceeded | internal/budget/budget.go:191-307 | in no run does a counter of a budgeted tenant exceed its limit when each call is served by a target it was estimated for, within the estimated usage and without hedge cost |
| Budget.ExcessIff | internal/budget/budget.go:285-300 | for every configuration and budgeted tenant, the limit holds in all runs whose settlements exceed their reservations by at most x if and only if x is not positive |
| Budget.HedgeCostOverruns | internal/budget/budget.go:286 | a call that reserved the whole limit and is charged a lost hedge breaks it |
| Budget.QuoteCovers | internal/budget/budget.go:233-245 | a target that was asked for costs, within the tokens asked for, at most what was quoted |
| Budget.PricedCallWithinReservation | internal/budget/budget.go:285-300 | a call served as asked and without a hedge settles within its reservation |
| Budget.Gateway.Reserve | internal/budget/budget.go:32-44 | admits and adds the estimate, or refuses and changes nothing |
| Budget.Gateway.Add | internal/budget/budget.go:48-59 | adjusts the counter, clamped at zero |
| Budget.Gateway.Before | internal/budget/budget.go:191-264 | one step of the state machine: estimate for the targets, refuse what cannot be priced if prices are required, reserve; proceeds unless rejected |
| Budget.Gateway.After | internal/budget/budget.go:285-307 | one step of the state machine: settle against the reservation, or charge a positive cost in full |
| Budget.Gateway.Settle | internal/budget/budget.go:293-298 | adjusts the counter of one call unless there is nothing to adjust |
| RateLimit.Assess | internal/ratelimit/limiter.go:35-55 | too large exactly when some cost exceeds its capacity; allowed exactly when every bucket can pay; otherwise the longest wait |
| RateLimit.Limiter.Take | internal/ratelimit/limiter.go:30-63 | charges all buckets when allowed and changes none otherwise |
| RateLimit.Limiter.Adjust | internal/ratelimit/limiter.go:67-83 | corrects one bucket and leaves the others |
| RateLimit.WaitExact | internal/ratelimit/limiter.go:46-52 | the wait of a bucket is the first millisecond at which it can pay |
| RateLimit.DeniedWaitExact | internal/ratelimit/limiter.go:37-62 | a denied request repeated after `u` milliseconds is accepted if and only if `u` is at least the announced wait, over all buckets together |
| RateLimit.WindowBound | internal/ratelimit/limiter.go:30-83 | between two accepted requests a bucket admits, net of adjustments, at most its capacity plus its refill, key expiry included |
| RateLimit.RoomForNext | internal/ratelimit/limiter.go:30-83 | the converse: when from each event of a run on, and from its start, what was taken and the next cost fit in a capacity and the refill since, the bucket can pay that cost |
| RateLimit.FreshAcceptsIff | internal/ratelimit/limiter.go:37-62 | fresh buckets accept exactly the costs that are within their capacities |
| RateLimit.ChargedLevel | internal/ratelimit/limiter.go:58 | an admitted request lowers the bucket by exactly its cost |
| RateLimit.RefundExact | internal/ratelimit/limiter.go:79 | a refund is given in full, up to the capacity |
| RateLimit.EventLeaves | internal/ratelimit/limiter.go:30-83 | no event takes more than it is charged, unless the bucket is full |
| RateLimit.WaitingLeaves | internal/ratelimit/limiter.go:42-47 | waiting refills a bucket and expiry fills it |
| RateLimit.CreditDrops | internal/ratelimit/limiter.go:30-83 | every event lowers what a bucket can ever hold by at least what it takes |
| RateLimit.ExpiryUnnoticed | internal/ratelimit/limiter.go:59 | the two-minute expiry cannot be noticed while debt is at most one capacity |
| RateLimit.ExpiryForgivesIff | internal/ratelimit/limiter.go:59 | expiry is unnoticed at all times if and only if the bucket would be full by then |
| RateLimit.DebitPaidIff | internal/ratelimit/limiter.go:77-79 | a debit is paid in full if and only if the bucket has not refilled past its capacity since it was written |
| RateLimit.DebitCanVanish | internal/ratelimit/limiter.go:77-79 | after an idle minute a debit of a whole capacity has no effect |
| RateLimit.ExpiryCanForgive | internal/ratelimit/limiter.go:59 | a debt of two and a half capacities is forgiven at expiry |
| AgentRun.Store.Step | internal/agentrun/runs.go:51-75 | the verdict in the script's order of checks, and the new counters and fingerprint list; a refusal changes nothing |
| AgentRun.Store.Charge | internal/agentrun/runs.go:104-120 | replaces the estimates by what was used |
| AgentRun.NoLoopInWindow | internal/agentrun/runs.go:59-69 | in every run any LoopWindow + 1 consecutive accepted fingerprints contain none LoopRepeats or more times |
| AgentRun.AcceptedIff | internal/agentrun/runs.go:51-75 | in every run the next step is accepted if and only if accepted steps, cost and tokens of the history are below their limits and the fingerprint is rare enough in the window |
| AgentRun.UnwatchedStep | internal/agentrun/runs.go:61-69 | without a fingerprint or a repeat limit a step is never a loop and leaves the list alone |
| AgentRun.WindowRepeats | internal/agentrun/runs.go:59-64 | the script's count is one more than the occurrences among the last accepted fingerprints |
| AgentRun.FreshMeansRare | internal/agentrun/runs.go:61-66 | entries that were each admitted against their window are rare in every window |
| AgentRun.PushMirrors | internal/agentrun/runs.go:66-67 | push and trim keep the list equal to the newest accepted fingerprints |
| AgentRun.RunAccounting | internal/agentrun/runs.go:51-120 | steps stay within a positive maximum; cost and tokens are settled use plus open estimates |
| KeyCache.StoredIsRecent | internal/secrets/keycache.go:89-195 | in every interleaving a stored credential is at least as new as the version active at its last purge |
| KeyCache.HoldsIff | internal/secrets/keycache.go:132-195 | in every run the cache holds for a name exactly what the last load stored that finished in its own epoch, if the name was not purged since |
| KeyCache.HitIff | internal/secrets/keycache.go:92-99 | in every run a call is answered from the cache if and only if such a load is there and its entry has not expired, and with what that load fetched |
| KeyCache.FallbackIff | internal/secrets/keycache.go:146-157 | in every run a load that could not fetch is answered from the cache if and only if the last stored entry is within its stale grace |
| KeyCache.FilledIsHit | internal/secrets/keycache.go:132-140 | right after a load that finishes in its own epoch a call before the expiry gets what it fetched |
| KeyCache.StoresIff | internal/secrets/keycache.go:112-140 | a load stores what it fetched if and only if no purge came between its reading of the epoch and its end |
| KeyCache.LastStoreMeans | internal/secrets/keycache.go:132-195 | the last store of a name is the one followed by nothing that replaces or purges it |
| KeyCache.DeliveredIsReturned | internal/secrets/keycache.go:141-153 | what a load hands out is what its callers get |
| KeyCache.PurgedExactly | internal/secrets/keycache.go:189-194 | a purge removes exactly the provider's own entry and those named tenant/provider |
| KeyCache.TrimmedExactly | internal/secrets/keycache.go:182 | trimming removes white space at both ends and nothing else |
| KeyCache.NoOldCredentialAfterPurge | internal/secrets/keycache.go:181-195 | after rotate and purge nothing older is stored, whatever loads were in flight |
| KeyCache.BelowFloorIff | internal/secrets/keycache.go:112-195 | a version active at one step is below the last purge's at a later one if and only if a rotation and then a purge of the name came in between |
| KeyCache.ReturnsOldIff | internal/secrets/keycache.go:89-164 | in every run a call receives a credential older than the last purge if and only if it was fetched and the name was rotated and then purged between fetch and return; cached and stale answers never are |
| KeyCache.JoinsOldIff | internal/secrets/keycache.go:101-110 | in every run a call that joins a load receives one older than the last purge before it asked if and only if the name was rotated and then purged between the fetch and the question |
| KeyCache.InFlightLoadMayReturnOld | internal/secrets/keycache.go:112-142 | a load in flight across a purge hands the old credential to a caller that joined after the purge, and does not store it |
| KeyCache.Store.Lookup | internal/secrets/keycache.go:93-99 | a hit exactly for an unexpired entry |
| KeyCache.Store.Fill | internal/secrets/keycache.go:132-140 | stores only in the epoch the load started in |
| KeyCache.Store.Stale | internal/secrets/keycache.go:147-155 | a hit exactly for an entry within its stale grace |
| KeyCache.Store.Purge | internal/secrets/keycache.go:168-176 | empties the cache and moves the epoch |
| KeyCache.Store.PurgeProvider | internal/secrets/keycache.go:181-195 | removes exactly the provider and its tenant overrides and moves the epoch; a blank name does nothing |
| Leader.OneLeader | internal/proof/leader.go:70-137 | in every run at most one replica has its flag set with a running lease, and the key names it |
| Leader.GrantsExactly | internal/proof/leader.go:70-98 | a free key is held for exactly the time to live, a renewal extends one's own to exactly that, a release frees it |
| Leader.LeadsAfterStep | internal/proof/leader.go:88-103 | whoever finds the key free, or its own still live, and gets an answer leads for a whole time to live |
| Leader.LeadsUntilEnd | internal/proof/leader.go:88-103 | until its lease ends a leader keeps leading whatever the others do |
| Leader.RefusedReply | internal/proof/leader.go:93-101 | an error or a refusal never makes a leader and ends a leadership at its renewal |
| Leader.OthersKeyUntouched | internal/proof/leader.go:70-84 | no replica extends or deletes a key another replica holds |
| Leader.TwoFlagsPossible | internal/proof/leader.go:88-103 | two flags can be set when one replica has not run for a whole lease |
| Leader.Redis.SetNX | internal/proof/leader.go:98 | acquires exactly when the key is free or expired |
| Leader.Redis.Renew | internal/proof/leader.go:70-76 | extends only one's own live key |
| Leader.Redis.Release | internal/proof/leader.go:78-84 | deletes only one's own live key |
| Leader.Replica.Step | internal/proof/leader.go:88-103 | flag and key after a renewal or an acquisition, delivered, unsent or with its answer lost |
| Leader.Replica.Release | internal/proof/leader.go:132-137 | flag dropped; own key deleted if the command arrived |
| Assembly.Assembler.Add | internal/api/assemble.go:25-58 | the loops over choices and tool calls compute the specified accumulation |
| Assembly.ChunksFromResponse | internal/api/assemble.go:80-122 | the chunks are text, tool calls, finish and usage as specified; none without a choice |
| Assembly.SplitText | internal/api/assemble.go:95-106 | the loop cuts the text into chunks of the size, at least one, the first with the role |
| Assembly.SplitTools | internal/api/assemble.go:107-111 | one chunk per tool call, numbered in order |
| Assembly.TextChunkSizes | internal/api/assemble.go:95-106 | text chunks have at most the given size, all but the last exactly it, and only the first has the role |
| Assembly.DefaultChunkSize | internal/api/assemble.go:81-83 | sizes that are not positive mean 64 |
| Assembly.ChunksHeaded | internal/api/assemble.go:84-89 | every chunk carries the response's id, model and creation time |
| Assembly.PlainTextParts | internal/api/content.go:73-84 | parts that are not text are left out and the others joined by newlines |
| Assembly.HeadTaken | internal/api/assemble.go:26-32 | the first non-empty id stays with its model and time, and the last usage wins |
| Assembly.OtherChoicesIgnored | internal/api/assemble.go:33-36 | only the choice with index 0 is assembled |
| Assembly.TextAssembled | internal/api/assemble.go:95-106 | assembling the text chunks gives the text, for every chunk size |
| Assembly.ToolsAssembled | internal/api/assemble.go:38-53 | assembling the tool chunks gives the tool calls in order |
| Assembly.ChunksAssembled | internal/api/assemble.go:25-122 | assembling the chunks of a response gives its normal form |
| Assembly.SplitAssembleIff | internal/api/assemble.go:25-122 | for every chunk size the response comes back if and only if it has the canonical shape |
| Anthropic.ChatResponse | internal/provider/anthropic.go:277-290 | the loop over blocks computes the whole translation |
| Anthropic.UnaryTold | internal/provider/anthropic.go:199-216 | what each stop reason becomes, and how the token counts add up |
| Anthropic.Receiver.Recv | internal/provider/anthropic.go:349-408 | skips events that carry nothing and translates the next one, with the new stream state; end and errors included |
| Anthropic.Receiver.Dispatch | internal/provider/anthropic.go:368-406 | the switch on an event's type: new stream state, and the chunk or error it gives, if any |
| Anthropic.SkippedChangeNothing | internal/provider/anthropic.go:406 | skipped events may be anywhere without changing what is assembled |
| Anthropic.StreamedMessage | internal/provider/anthropic.go:349-408 | the chunks of any message, cut into any pieces, assemble to its text, tool calls, finish reason and usage |
| Anthropic.StreamTold | internal/provider/anthropic.go:369-398 | the same finish reason and usage in what is assembled from any message's chunks |
| Anthropic.ChunkTold | internal/provider/anthropic.go:342-398 | every chunk carries id and model; the role, the finish reason and the usage come with exactly their events |
| Anthropic.StreamMatchesUnaryIff | internal/provider/anthropic.go:199-408 | the streamed and the whole translation agree if and only if the pieces carry the message's text and tool calls and there is an id (or no model name to lose) |
| Anthropic.StreamEqualsUnaryIff | internal/provider/anthropic.go:199-408 | for every message and every way its blocks are streamed, the translations agree if and only if it has an id (or no model name to lose) and no tool is called without arguments |
| Anthropic.EmptyArgumentsDiffer | internal/provider/anthropic.go:284-389 | a message that calls one tool without arguments is translated differently streamed and whole |
| Anthropic.Consume | internal/provider/anthropic.go:349-408 | receiving until the end and assembling gives the folded result, and fails exactly when an error event comes before the end of the message |
| Sse.Writer.Event | internal/sse/writer.go:73-91 | appends exactly the encoding of the event |
| Sse.Framed | internal/sse/writer.go:82-84 | the loop writes one data line per line |
| Sse.RawIsEvent | internal/sse/writer.go:58-69 | unnamed data without a newline is framed as an event |
| Sse.Reader.Next | internal/sse/reader.go:55-105 | the loop reads what the specification scans and leaves the rest unread |
| Sse.NextReadsEvent | internal/sse/reader.go:55-105 | a written event is read back whole if it fits the limit, and is too large otherwise |
| Sse.FieldForms | internal/sse/reader.go:84-96 | one space after the colon is dropped if it is there, and only one |
| Sse.BareField | internal/sse/reader.go:84-96 | a field name without a colon has the empty value |
| Sse.IgnoredLines | internal/sse/reader.go:81-96 | comments and fields of other names are ignored |
| Sse.LineRead | internal/sse/reader.go:61-80 | a line ends with a newline, with or without a carriage return before it |
| Sse.LastLineRead | internal/sse/reader.go:97-103 | a last line without a newline still counts, and so does its event |
| Sse.OneFieldEvent | internal/sse/reader.go:86-96 | any single field makes an event, also without data |
| Sse.WrittenReadBack | internal/sse/reader.go:55-105 | writable events are read back in order, then the end, if all fit; otherwise the stream is too large |
| Sse.ScanWritable | internal/sse/reader.go:73-96 | the reader never yields an event the writer could not have written faithfully |
| Sse.RoundTripIff | internal/sse/writer.go:73-91 | any list of events comes back exactly if and only if ids, names and data lines have no newline or trailing carriage return and each encoding fits |
| JsonKeys.CheckObject | internal/mcpproxy/jsonrpc.go:52-94 | verdict and remaining tokens as the specification of the loop says |
| JsonKeys.CheckArray | internal/mcpproxy/jsonrpc.go:96-123 | verdict and remaining tokens as the specification of the loop says |
| JsonKeys.CheckRest | internal/mcpproxy/jsonrpc.go:73-84 | the switch on a value's first token |
| JsonKeys.RejectDuplicateKeys | internal/mcpproxy/jsonrpc.go:13-50 | accepts exactly the token streams the specification accepts |
| JsonKeys.ValueChecked | internal/mcpproxy/jsonrpc.go:52-123 | after any value's first token the checker consumes exactly the rest of the value, or rejects it when it is not clean |
| JsonKeys.FieldsChecked | internal/mcpproxy/jsonrpc.go:54-93 | the object loop accepts exactly fields with fresh, distinct folded keys and clean values |
| JsonKeys.ItemsChecked | internal/mcpproxy/jsonrpc.go:97-122 | the array loop accepts exactly clean items |
| JsonKeys.AcceptsIffClean | internal/mcpproxy/jsonrpc.go:13-123 | a JSON value with anything behind it is accepted if and only if it is an object or array with folded keys distinct in every object at every depth, and nothing trails |

## Left out

- Floating point: counters, prices, products and bucket levels are exact reals; rounding errors and overflow to 64-bit integers are not modelled.
- Bytes and characters: strings are sequences of characters; a chunk that splits a UTF-8 character is not modelled.
- Regular expressions, IP parsing, SSN shape and sorting: detectors are any in-bounds hits, already in the order the sort produces.
- Redaction.Redact: mask mode is not modelled, because it keeps no mapping and so has nothing to restore.
- Redaction.Request.RedactTexts: message parts, plain contents and tool-call arguments are one list of texts in the order the stage visits them; the structure around them and the count for the response header are not modelled.
- Restorers per tool call: their flushing at the end of a stream and the installation of the chunk filter are not modelled.
- HedgedRace: the breaker calls inside the race, the texts of errors, and how an attempt reacts to cancellation are not modelled; a plan of fewer than two targets goes straight to `Execution.Execute`.
- Execution.Execute: the log has this call's own questions and calls only; other calls that change the shared breakers at the same time are not modelled here (`Breaker` covers every interleaving of events on one breaker). The length of a backoff is not modelled, only whether a sleep is cut short.
- Budget: transport errors with their fail-open branches, key expiry, the path without reservations and the collection of targets from a route are not modelled.
- RateLimit: the model has any number of buckets where the code has two.
- AgentRun: key expiry and fuzzy loop detection are not modelled.
- KeyCache: jitter of the expiry, decryption and zeroing of bytes are not modelled; a failed decryption is a failed fetch.
- Leader.Replica.Step: waiting between steps is not modelled; any interleaving of steps and any passing of time is covered by `Leader.OneLeader`.
- Anthropic: the request side, HTTP and JSON decoding are not modelled; events enter decoded.
- Sse.Writer.Event: write and flush errors, and the header that starts a stream, are not modelled.
- JsonKeys: the lexer and grammar of the JSON decoder are not modelled; lower-casing is any function on keys.
- Other providers, HTTP handlers, configuration, authentication, storage, metrics, semantic caching and judging: mostly plumbing, foreign code or statistics, which would add only easy members.

# Kyoci-Agent: a verified model of the agent runtime

Dafny models of the control-flow kernels of a Go multi-agent runtime, with proofs. What the
kernels call into (model, tools, skills, approval, disk, clock) is a parameter, so the theorems
hold for every behaviour of it. `dafny verify dfyconfig.toml` checks everything.

| file | what it models |
|---|---|
| `Base.dfy`, `Messages.dfy` | strings, options, map iteration in any order; conversation messages |
| `Plan.dfy`, `Dispatcher.dfy` | the plan dispatcher: rounds, stuck plans, goroutine interleavings, the stall breaker |
| `Sdlc.dfy` | plan truncation and the injection of SETUP, VERIFY, QA and SERVE steps |
| `JsonScan.dfy` | the bracket scanners that cut JSON out of model output |
| `Thinking.dfy`, `ThinkingDriver.dfy` | the thinking state machine: steps, invariants, worst case and runs that attain it; its object and driver |
| `ThinkingContent.dfy`, `ThinkingVerify.dfy` | where the text that a thinking run returns comes from; which claims it rejects |
| `ThinkingOutcome.dfy` | what leads a thinking run to each state and to each end |
| `Worker.dfy`, `WorkerOutcome.dfy` | the worker loop; why it takes each turn and end, and what the dispatcher's breaker makes of them |
| `Verification.dfy` | the file-creation gate and its retries |
| `Compaction.dfy`, `React.dfy` | the two conversation compactors; the free ReAct loop on top of them |
| `ReactOutcome.dfy` | what calls leave in a ReAct run, and why it takes each turn and end |
| `Anthropic.dfy` | the translation of conversations into alternating turns |
| `Alternation.dfy`, `WorkerAlternation.dfy` | which conversations of the loops and the compactor alternate |
| `Hub.dfy`, `HubDelivery.dfy`, `Activity.dfy` | two concurrent brokers as steps over all interleavings; who receives what from the first |
| `Config.dfy`, `ConfigNodes.dfy` | provider settings on YAML nodes and in memory |
| `Memory.dfy` | the bounded store with its in-place sorts |

Each component has a specification (functions and predicates on values), theorems about it, and
methods or classes in the source's own imperative form proved against it. Runs of the loops are
described by their history: `React.Next`, `Worker.Next` and `ThinkingDriver.Iterated` give the one
continuation of a history, the methods are proved to take it, and the bounds are theorems about it.
Concurrent code is a set of atomic steps (`Enabled`, `Apply`) with traces in any order; the classes'
methods are those steps. The `Outcome` files say what these specifications come to without naming them:
in terms of the replies, approvals and tool results that a run was given.

What the proofs brought out:

- A thinking run takes at most `toolBudget + 4 * maxReflections + 2` transitions, and with fewer replans
  than reflections, as by default, at most `toolBudget + 2 * maxReflections + 2 * maxReplans + 3`. Some run
  takes exactly that many once the budget is large enough (`Thinking.WorstCaseAttained`).
- The report "thinking loop exhausted" (internal/agent/thinking.go:1007-1011) also appears for runs that
  reached Done: `ThinkingContent.ExhaustedIff` says exactly when, `EmptyAnswerIsExhausted` is such a run.
- A claim that Verify rejected can come back as the answer, when a reply in Reflect asks for a tool call
  without naming one: `ThinkingContent.TextAtDone` and `RejectedClaimReturned`.
- Verify is documented to reject a claim only after a real tool failed (internal/agent/thinking.go:208-212, 513-520),
  but Execute's way to Reflect over repeated calls is recorded under the name "execute" (415-419) and counts as one:
  `ThinkingVerify.VerifyRejectsIff` has both causes, `RejectedWithoutFailure` a run in which every tool works.
- A plan with duplicate step IDs can never complete (`Plan.DuplicateIdsNeverComplete`); the SETUP
  step's ID -1 collides exactly if the planner used -1 (`Sdlc.RewrittenDistinctIff`).
- `Compact` puts the system messages after the others. `SmartCompact` leaves seven or eight other
  messages, so it can lengthen a conversation of seven (`Compaction.LengthensIff`), and it can miss the
  token target (`Compaction.TargetMetIff`, `Compaction.TargetMissed`).
- Text merged into a turn of blocks is lost; `Anthropic.LostIff` says exactly when. Roles alternate
  exactly for the conversations of `Anthropic.AlternatesIff`.
- The loops do not always produce such conversations. A compaction can keep a tool result whose call it
  summarises away (`Alternation.ReactAlternatesIff`, `BusyRunIsCut`, for any context budget). In a worker step the
  requests alternate exactly unless shown code is written at once, directly behind the prompt, and the model asked
  again, or a retry's tool message follows a run that stopped right after its nudge (`WorkerAlternation.StepAsksIff`, `StepAlternatesIff`,
  `StartsBehindTextIff`; both happen: `ShownCodeBreaks`, `RetryBreaks`, `TalkerIsRetried`).
- The repeated-call breaker compares the name and the arguments joined by a colon, so it takes some
  different calls for the same (`Worker.SameCallIff`, `Worker.DifferentCallsTaken`), but none whose names
  have no colon (`Worker.PlainTriple`); it never misses three equal ones.
- Retries count claims as tried before by their names joined with commas, which is exact for names without
  commas and can skip a retry otherwise (`Verification.SameClaimsIff`, `CommaClaims`).
- The dispatcher's breaker counts a worker ended by the repeated-call breaker as stalled, but one that used up
  its tool budget as progress (`WorkerOutcome.StalledRuns`).
- An accepted operator hint may go unread (`Hub.SecondHintGoesUnread`).
- The newest activity event survives overflow only with one publisher at a time
  (`Activity.LatestAreKept`, `Activity.NewestIsLost`), although Publish calls may share the lock; without
  overflow nothing is lost, however many there are (`Activity.MissingOnlyIfFull`).
- Updating a provider that the YAML file has as null is lost on disk while memory changes;
  `Config.DiskAgreesIff`, and with it `ConfigNodes.Server.ConfigPut`, gives the exact condition for agreement.

## Model

| member | source | states |
|---|---|---|
| Plan.Batch | internal/agent/orchestrated.go:1109-1118 | a round takes exactly the steps that are not finished and whose dependencies all are |
| Plan.DoneHadDeps | internal/agent/orchestrated.go:1209-1216 | a finished step had every dependency finished one round earlier, so nothing runs early |
| Plan.CycleNeverDone | internal/agent/orchestrated.go:1108-1122 | no step on a dependency cycle ever finishes, in any number of rounds |
| Plan.StuckIff | internal/agent/orchestrated.go:1108-1122 | when no step is eligible any more, the finished count reaches the plan's length exactly if IDs are distinct, no dependency is missing and there is no cycle |
| Plan.DuplicateIdsNeverComplete | internal/agent/orchestrated.go:1103-1122 | a plan with two steps under one ID can never complete, because finished IDs are compared with the number of steps |
| Plan.StartGivesLongestChain | internal/agent/orchestrated.go:1108-1122 | a step that starts in round r has a dependency chain of r + 1 steps and none longer |
| Plan.RoundIsLongestChain | internal/agent/orchestrated.go:1108-1190 | a step that ever finishes starts in round r exactly if its longest dependency chain has r + 1 steps |
| Dispatcher.SolutionUnique | internal/agent/orchestrated.go:1220-1228 | results that give every step the outcome on exactly its dependencies' results are unique along any dependency order |
| Dispatcher.AdvanceInv | internal/agent/orchestrated.go:1124-1172 | each goroutine step (permit, snapshot, run, publish, release) keeps: at most maxParallel in flight, results only of finished steps, earlier results untouched |
| Dispatcher.PriorIsStable | internal/agent/orchestrated.go:1155-1158 | while a round runs, the results a worker of that round may read do not change, and its snapshot maps exactly its dependencies to their results |
| Dispatcher.RoundNotStuck | internal/agent/orchestrated.go:1124-1172 | with at least one permit some goroutine of an unfinished round can always go on |
| Dispatcher.EveryInterleaving | internal/agent/orchestrated.go:1124-1172 | any interleaving of a round's goroutines is finite, respects the limit, never deadlocks, and ends with an outcome for each ID of the batch: with distinct IDs, in the results of running it one step at a time |
| Dispatcher.RoundEnd | internal/agent/orchestrated.go:1124-1172 | whatever the schedule was, a round in which all goroutines returned has finished exactly its batch, with an outcome for each ID, and with distinct IDs has the sequential results |
| Dispatcher.StallScanIff | internal/agent/orchestrated.go:1174-1188 | the counter scanned over a round trips exactly if the results so far, in start order, hold three stalls in a row |
| Dispatcher.RunRound | internal/agent/orchestrated.go:1124-1172 | one concurrent round, with goroutines advanced in an arbitrary order, adds the batch to done and yields such results |
| Dispatcher.NextBatch | internal/agent/orchestrated.go:1109-1118 | the loop that collects the ready steps computes the batch |
| Dispatcher.CountStalls | internal/agent/orchestrated.go:1174-1188 | the stall loop over a batch computes the scanned counter |
| Dispatcher.ExecuteWorkers | internal/agent/orchestrated.go:1093-1191 | for any plan every result is what a step under its ID gives: the skill's output, or the worker's answer or error when given exactly the final results of the step's dependencies; with distinct IDs results and verdict are those of the sequential reference, with duplicate IDs the run does not complete |
| Dispatcher.SeqRunSolves | internal/agent/orchestrated.go:1093-1191 | running a dependency-ordered list one step at a time solves every step's equation |
| Dispatcher.RunOrder | internal/agent/orchestrated.go:1093-1191 | for every plan with distinct IDs there is a start order, round by round, that explains the run |
| Dispatcher.StartsInChainRound | internal/agent/orchestrated.go:1108-1190 | each step a run starts, it starts in the round of its longest dependency chain |
| Dispatcher.DispatchCorrect | internal/agent/orchestrated.go:1093-1191 | steps start at most once and after their dependencies; the breaker stops a run exactly on three stalls in a row; a run it does not stop is stuck exactly if a dependency is missing or there is a cycle |
| Dispatcher.AnyOrderSameResults | internal/agent/orchestrated.go:1093-1191 | a completed run has the results of evaluating the plan one step at a time in any dependency order |
| Dispatcher.StoppedIff | internal/agent/orchestrated.go:1174-1206 | a run is stopped exactly if three results in a row, in start order, are blank or begin, without surrounding blanks, with one of the five notes of failure |
| Sdlc.AppendUnique | internal/agent/orchestrated.go:908-915 | the list gains the value if it lacked it and nothing else |
| Sdlc.MaxId | internal/agent/orchestrated.go:917-925 | no step ID exceeds it |
| Sdlc.FindNextStepId | internal/agent/orchestrated.go:917-925 | the loop finds the ID after the largest one |
| Sdlc.AddTail | internal/agent/orchestrated.go:847-888 | one tail stage: appends its step, depending on every step, unless some step already matches the stage's keywords |
| Sdlc.InjectSetup | internal/agent/orchestrated.go:833-846 | SETUP goes first and every other step's dependency list is extended in place |
| Sdlc.EnsureSdlcSteps | internal/agent/orchestrated.go:816-894 | the whole rewriting, including what it leaves in the caller's own steps |
| Sdlc.TruncationOrdered | internal/agent/orchestrated.go:746-757 | cutting an ordered plan to its first n steps keeps it ordered |
| Sdlc.RewrittenDistinctIff | internal/agent/orchestrated.go:816-894 | the rewritten IDs are distinct exactly if the planner's were and the SETUP ID, when injected, was free |
| Sdlc.RewrittenOrdered | internal/agent/orchestrated.go:816-894 | a plan whose dependencies name earlier steps stays so |
| Sdlc.OrderedNotStuck | internal/agent/orchestrated.go:1108-1122 | an ordered plan has no missing dependency and no cycle |
| Sdlc.PlannedNeverStuck | internal/agent/orchestrated.go:746-757 | an ordered planner answer, truncated and rewritten, has distinct IDs and is never reported stuck by the dispatcher |
| Sdlc.GateRunsAlone | internal/agent/orchestrated.go:816-894 | a step that waits for all earlier and is awaited by all later ones has a round of its own |
| Sdlc.SetupRunsFirst | internal/agent/orchestrated.go:833-846 | an injected SETUP is the whole first round |
| Sdlc.TailsRunAlone | internal/agent/orchestrated.go:847-888 | every injected VERIFY, QA or SERVE step has a round of its own after everything listed before it |
| Sdlc.OriginalsKept | internal/agent/orchestrated.go:816-894 | at most four steps are added; the planner's steps stay in order, changed at most by the dependency on SETUP |
| Sdlc.RewritingIsIdempotent | internal/agent/orchestrated.go:816-894 | a second application changes nothing, because the injected texts match their own keywords |
| Sdlc.WhatIsGained | internal/agent/orchestrated.go:816-894 | a plan that creates files becomes SETUP unless some step matches it, the planner's steps in order, then of VERIFY, QA and SERVE those no earlier step matches, in this order, each with the next ID, the terminal hint and all earlier steps as dependencies |
| Sdlc.EveryStageIsThere | internal/agent/orchestrated.go:816-894 | afterwards some step matches each of SETUP, VERIFY and QA, and SERVE if the task asks to see the result; a plan that creates no file is unchanged |
| JsonScan.IndexFrom | internal/agent/orchestrated.go:1033-1036 | the first occurrence of the needle at or after a position, or none |
| JsonScan.ScanBlock | internal/agent/orchestrated.go:1037-1066 | the depth, string and escape counting loop takes the block that the scanner automaton delimits |
| JsonScan.ExtractOutermostArray | internal/agent/orchestrated.go:1032-1067 | returns the block at the first bracket |
| JsonScan.SalvageNextAction | internal/agent/thinking.go:641-694 | returns the block at the first brace after the first "next_action" key |
| JsonScan.TextPasses | internal/agent/orchestrated.go:1041-1065 | scanning the text of any JSON value, inside or outside strings, leaves the scanner as it was |
| JsonScan.ScanTakesValue | internal/agent/orchestrated.go:1041-1065 | started at a value's opening bracket the scanner takes exactly the value's text, whatever follows |
| JsonScan.ArrayIsExtracted | internal/agent/orchestrated.go:1032-1067 | from bracket-free prose, then any array's text, then anything, exactly the array is returned |
| JsonScan.ObjectIsSalvaged | internal/agent/thinking.go:641-694 | the object after the first "next_action" key is cut out exactly, whatever its strings hold |
| Thinking.StepKeepsInv | internal/agent/thinking.go:115-553 | every step from every state, whatever the model answers and whether or not the tool works, keeps the window the last four calls, the map their multiplicities, reflections and replans within their caps, and calls within the budget plus one per reflection |
| Thinking.TransitionProgress | internal/agent/thinking.go:909-1003 | every transition lowers a bound computed from budget, reflections, failures and looping |
| Thinking.NoLongerRun | internal/agent/thinking.go:909-1003 | no sequence of transitions is longer than the bound of its first state |
| Thinking.WorstCaseBounds | internal/agent/thinking.go:909-1003 | from the start at most toolBudget + 4 * maxReflections + 2 transitions, and with fewer replans than reflections at most toolBudget + 2 * maxReflections + 2 * maxReplans + 3 |
| Thinking.WorstCaseAttained | internal/agent/thinking.go:909-1003 | some model and tool behaviour takes exactly that many: for a budget of two or more, or, with fewer replans than reflections, of six more than their difference |
| ThinkingDriver.LoopState.RecordToolCall | internal/agent/thinking.go:115-130 | the counters, window and map in place |
| ThinkingDriver.LoopState.IsLooping | internal/agent/thinking.go:159-168 | true exactly if two of the remembered calls coincide |
| ThinkingDriver.LoopState.HasToolExecutionFailure | internal/agent/thinking.go:213-220 | true exactly if some recorded failure is not one of the control-flow entries |
| ThinkingDriver.LoopState.RunToolCall | internal/agent/thinking.go:481-506 | records, runs, and goes to Execute or Reflect |
| ThinkingDriver.LoopState.DoAssess | internal/agent/thinking.go:310-338 | the Assess step on the object |
| ThinkingDriver.LoopState.DoPlan | internal/agent/thinking.go:345-362 | the Plan step, with the plan capped |
| ThinkingDriver.LoopState.DoExecute | internal/agent/thinking.go:373-478 | the Execute step: budget, the one nudge, looping, then a turn |
| ThinkingDriver.LoopState.DoVerify | internal/agent/thinking.go:521-553 | the Verify step |
| ThinkingDriver.LoopState.DoReflect | internal/agent/thinking.go:717-772 | the Reflect step, which may run a tool without looking at the budget |
| ThinkingDriver.LoopState.Dispatch | internal/agent/thinking.go:928-944 | the driver's switch is the step function |
| ThinkingDriver.Settle | internal/agent/thinking.go:946-1003 | the driver's handling of a step's outcome: advance, remind, fall back to prose once, or give up |
| ThinkingDriver.TrailsAgree | internal/agent/thinking.go:909-1003 | the model's and the tools' answers determine every state of the run |
| ThinkingDriver.TrailIsBounded | internal/agent/thinking.go:909-1003 | every run of the driver ends within the worst case without parse failures and within three times that with them, since no three come in a row; every state on the way keeps the invariant |
| ThinkingDriver.ExecuteWithThinking | internal/agent/thinking.go:874-1057 | the driver follows the one run that the answers call for until it is over or the ceiling is hit, and reports what its last state holds |
| ThinkingDriver.DefaultsNeverHitCeiling | internal/agent/thinking.go:823-871 | under the default caps a run without parse failures is over within 38 transitions, so the ceiling never ends it |
| ThinkingContent.TextAtDone | internal/agent/thinking.go:717-772 | a text at Done was accepted by Verify, answered in Reflect, or given as plain prose, exactly unless the last reply was a Reflect tool_call without a tool call; that returns the last claim, which Verify rejected |
| ThinkingContent.TextOfCutRun | internal/agent/thinking.go:1005-1016 | a run cut by the ceiling or an error reports its last claim if it made one, and Verify rejected that claim unless the ceiling came before its verdict |
| ThinkingContent.RejectedClaimReturned | internal/agent/thinking.go:744-755 | that happens, for any claim and any caps with two calls, two reflections and a replan |
| ThinkingContent.ExhaustedIff | internal/agent/thinking.go:1006-1016 | below the ceiling a run is reported as exhausted exactly if it reached Done with an empty text: an empty claim that Verify passed, an empty answer in Reflect, or a missing tool call after an empty claim or none |
| ThinkingContent.EmptyAnswerIsExhausted | internal/agent/thinking.go:1006-1016 | that happens for every environment when the model only gives empty answers |
| ThinkingVerify.StepFails | internal/agent/thinking.go:373-506 | a step puts a failure that hasToolExecutionFailure sees on record exactly if a tool that is not named like a control-flow entry fails, or Execute goes to Reflect because of repeated calls |
| ThinkingVerify.VerifyRejectsIff | internal/agent/thinking.go:521-553 | in every run, Verify rejects a claim exactly if the reply that made it gives no evidence and, before it, such a tool failed or Execute went to Reflect because of repeated calls |
| ThinkingVerify.RejectedWithoutFailure | internal/agent/thinking.go:393-419 | the second alone suffices: for any claim, any budget of seven calls or more and any number of reflections a run is rejected although every tool worked |
| ThinkingOutcome.WhatLeadsWhere | internal/agent/thinking.go:310-772 | for each state, which replies and tool results exactly bring a step there |
| ThinkingOutcome.CountersCount | internal/agent/thinking.go:115-130 | in every run the counters are the numbers of tool calls run, replies heard, reflections and replans, and the call history lists the calls run |
| ThinkingOutcome.EndsWithoutAnswerIff | internal/agent/thinking.go:373-772 | a run reports a question exactly if the last iteration was an Execute that heard a request for information with that question, the budget message exactly if it entered Execute after as many tool calls as the budget has, the caps message exactly if Reflect had no reflection left or heard what calls for a replan with none left |
| ThinkingOutcome.EscalatesIff | internal/agent/thinking.go:379-424 | Execute with budget left goes to Reflect by itself exactly if the calls so far are wasteful, or two of the last four coincide and a failure is on record or an earlier repetition was nudged |
| ThinkingOutcome.ThirdParseFailureEnds | internal/agent/thinking.go:946-983 | a reply that cannot be parsed ends the run exactly if the two before it could not be parsed either, in plain prose if there is a prose answer that is not blank, and as failed otherwise |
| ThinkingOutcome.PlanIsLast | internal/agent/thinking.go:345-370 | the current plan is the last one the model gave where a plan is taken, cut to its first eight items |
| ThinkingOutcome.ReportCounts | internal/agent/thinking.go:1018-1056 | the report counts the tool calls run and the replies heard, and has an error exactly if the last model call broke down or three replies in a row could not be parsed without a prose answer |
| Worker.BreakerStep | internal/agent/worker.go:402-413 | the repeat counter reaches three exactly if the call would be the third of the same in a row |
| Worker.NoRepeatedCall | internal/agent/worker.go:402-413 | a history the breaker allows never holds three calls in a row with the same name and arguments |
| Worker.SameCallIff | internal/agent/worker.go:402-402 | the breaker takes two calls for the same exactly if they are identical or differ in which colon ends the name |
| Worker.DifferentCallsTaken | internal/agent/worker.go:402-402 | such different calls exist for any texts |
| Worker.PlainTriple | internal/agent/worker.go:402-413 | for names without a colon the breaker counts three in a row exactly for three identical calls |
| Worker.BreakerEndsRun | internal/agent/worker.go:402-413 | a run that ends by the breaker was about to complete such a triple |
| Worker.AnsweredInOrder | internal/agent/worker.go:391-424 | every executed call is answered by one tool message, in order, under its own ID, given the conversation before it |
| Worker.EveryCallAnswered | internal/agent/worker.go:383-424 | at the end of a run every call that was run, in any turn, is answered under its own ID and in order after the reply that asked for it |
| Worker.TurnsExtend | internal/agent/worker.go:193-439 | the conversation only grows |
| Worker.RunCalls | internal/agent/worker.go:391-424 | runs the calls up to the first that would exceed the budget or trip the breaker, and says which it was |
| Worker.AutoWrite | internal/agent/worker.go:315-329 | the intercepted writes are appended as tool messages |
| Worker.TakeAnswer | internal/agent/worker.go:293-381 | a reply without calls: auto-write, nudge once, or accept, tagged if no tool was used |
| Worker.OneRun | internal/agent/worker.go:193-439 | model, tools and limits determine the turns of the run |
| Worker.RunIsBounded | internal/agent/worker.go:193-439 | every run: at most maxIterations model calls, at most maxToolCalls executed requests, no three equal in a row, at most one nudge, the input conversation extended, no untagged answer without evidence where evidence is needed |
| Worker.ReactLoop | internal/agent/worker.go:193-439 | the loop returns what the one run that the replies call for returns |
| WorkerOutcome.EveryTurnLeaves | internal/agent/worker.go:193-439 | each turn stands in the final conversation right behind those before it: the nudged answer and the nudge, one message for each file written, or the reply and for each call run the output or error its tool gave on the conversation up to there |
| WorkerOutcome.UsesAreMessages | internal/agent/worker.go:315-424 | the conversation grows by the replies, the nudges, and one message for each counted tool use |
| WorkerOutcome.EveryTurnExplained | internal/agent/worker.go:293-424 | each turn of a run is what the reply before it calls for: as many calls as the budget and the breaker let run, the writes for shown code, or the one nudge |
| WorkerOutcome.EveryEndExplained | internal/agent/worker.go:193-439 | how every run ends and with which text: by the budget or the breaker if a reply's calls were not all run, else at the cap with the last message's text, else on a failed model call, else on an answer, tagged exactly if the run was nudged for evidence and no tool was used |
| WorkerOutcome.StalledRuns | internal/agent/orchestrated.go:1194-1206 | the dispatcher's breaker takes a run ended by the repeated-call breaker, or accepted without the evidence it was nudged for, for stalled, and one that used up its tool budget for progress |
| WorkerOutcome.StalledTexts | internal/agent/orchestrated.go:1194-1206 | so it does a text that failed verification, but not one that partly passed |
| Verification.ExtractWrittenPaths | internal/agent/orchestrated.go:1320-1351 | the loop over messages and calls collects the written paths |
| Verification.WrittenPathsExact | internal/agent/orchestrated.go:1320-1351 | the paths are, once each, exactly those some assistant call of the file tool asks to write, append to or edit, blanks and case aside |
| Verification.WrittenPathsExtend | internal/agent/worker.go:507-517 | the paths of a grown conversation extend those of its beginning |
| Verification.SubtractSet | internal/agent/orchestrated.go:1522-1534 | removes the listed paths and keeps the order of the rest |
| Verification.RestIsConfirmed | internal/agent/orchestrated.go:1304-1309 | taking away the missing and the empty leaves exactly the confirmed |
| Verification.VerifyFileCreation | internal/agent/orchestrated.go:1262-1315 | the text is tagged by the verdict on the candidates, whose meaning is Verification.TextMeaning |
| Verification.VerdictMeaning | internal/agent/orchestrated.go:1262-1315 | each verdict by the answers of the exists calls: none found exactly if every written path errs or does not exist, passed exactly if there are such paths and all exist with content; in the partial case missing, empty and confirmed are the written paths told apart by their answers, in order |
| Verification.TextMeaning | internal/agent/orchestrated.go:1262-1315 | the text is unchanged, has the partial note or the failure tag exactly by what the exists calls for the written paths answered |
| Verification.ListsPrint | internal/agent/orchestrated.go:1294-1309 | a list is printed in brackets with a blank between its texts |
| Verification.UntaggedIsHonest | internal/agent/orchestrated.go:1262-1315 | no failure tag means the exists call for some written path answered, and not that it does not exist; an unchanged text, or one without either tag, means so for every one, and none of size zero |
| Verification.RetriesExtend | internal/agent/worker.go:451-546 | retries only add to the conversation |
| Verification.UntaggedAfterRetries | internal/agent/worker.go:451-546 | after any retries, a text without the failure tag vouches for a path of the final conversation, and one without any tag for all of them |
| Verification.Retry | internal/agent/worker.go:491-530 | one retry is a run of the worker loop on the conversation with the failure and the nudge, judged on what it grew into |
| Verification.VerifyArtifacts | internal/agent/worker.go:451-546 | the verdict after at most two retries, none for a claim set already tried, and none left undone without one of the named reasons |
| Verification.SameClaimsIff | internal/agent/worker.go:475-484 | claims of names without commas count as tried before exactly if the same names were claimed in the same order |
| Verification.CommaClaims | internal/agent/worker.go:475-484 | with commas different claims can count as the same |
| Verification.RetriesDiffer | internal/agent/worker.go:451-546 | without such names no two retries answer the same claims, and a failed verdict is left without a further retry only for two made, a broken loop, no claims, or the same claims again |
| Verification.TagBuildFailure | internal/agent/worker.go:74-96 | a verify or QA text is tagged exactly if it or some message shows a non-zero exit |
| Compaction.GreedyIsGreatest | internal/agent/context.go:129-147 | the kept set is lexicographically greatest, counting from the newest message, among all that fit |
| Compaction.CompactedWithinLimit | internal/agent/context.go:110-150 | when the system text fits, the result is within 4 * maxTokens characters: a selection of the others in order, then all system messages |
| Compaction.CompactedIs | internal/agent/context.go:110-150 | for any conversation and limit: unchanged if it fits, the system messages alone if they are too long, else the greatest choice of the others that fits in front of them |
| Compaction.FirstUser | internal/agent/context.go:189-197 | the first user message's index |
| Compaction.SmartPartition | internal/agent/context.go:171-205 | every non-system message is the task, summarised or kept, exactly once, and seven or eight remain |
| Compaction.PartsAround | internal/agent/context.go:189-205 | with the first user message at f, the older messages without it are summarised and the newest six without it are kept |
| Compaction.SmartCompactedIs | internal/agent/context.go:159-242 | unchanged if it fits or has at most six other messages; else system messages, task, summary and kept messages in this order |
| Compaction.SmartCompactedParts | internal/agent/context.go:159-242 | system messages stay as they are; the rest becomes task, summary, recent messages |
| Compaction.LengthensIff | internal/agent/context.go:159-242 | a compaction that acts lengthens the conversation exactly if there are seven other messages and the first of them is the task |
| Compaction.TargetMetIff | internal/agent/context.go:159-242 | it meets the token target exactly if system messages, task, summary and kept messages already fit |
| Compaction.TargetMissed | internal/agent/context.go:159-242 | for every target some compaction acts and misses it |
| Compaction.TaskSurvives | internal/agent/context.go:159-242 | over any sequence of adds and compactions all system messages survive in order and the task stays the first user message |
| Compaction.Context.Add | internal/agent/context.go:32-72 | appends one message |
| Compaction.Context.TokenCount | internal/agent/context.go:93-103 | a quarter of the characters |
| Compaction.Context.Compact | internal/agent/context.go:110-150 | the greedy compactor in place |
| Compaction.Context.SmartCompact | internal/agent/context.go:159-242 | the structure-preserving compactor in place |
| Compaction.KeepNewest | internal/agent/context.go:129-147 | the backwards loop computes the greedy choice |
| Compaction.SplitOthers | internal/agent/context.go:189-205 | one pass finds the task and splits the rest |
| React.Execute | internal/agent/strategy_react.go:137-199 | approvals in order, then the approved tools finishing in any order: every slot holds its own call's result |
| React.RunCalls | internal/agent/strategy_react.go:135-245 | one assistant message, then one tool message per call in request order under its ID, and one log entry per call |
| React.Respond | internal/agent/strategy_react.go:113-284 | what the loop makes of a reply depends only on the history of turns, although the code keeps flags and counters |
| React.CompactIfLarge | internal/agent/strategy_react.go:78-84 | compacts to half the budget exactly when the conversation exceeds it |
| React.Round | internal/agent/strategy_react.go:74-284 | the iterations of a round add turns and messages in step |
| React.OneRun | internal/agent/strategy_react.go:54-310 | the surroundings determine the turns of the run |
| React.RunIsBounded | internal/agent/strategy_react.go:65-84 | model calls stay within maxIterations for each round, rounds within the configured continuations and one, and within sixteen however high that is |
| React.CallsAreBounded | internal/agent/strategy_react.go:125-245 | fewer than fifteen calls are recorded, not counting those of the last reply that ran |
| React.ResumedAfterCalls | internal/agent/strategy_react.go:286-309 | a further round starts only after a full one that itself ran and recorded calls |
| React.LogMatchesCalls | internal/agent/strategy_react.go:218-244 | the log has one entry for each recorded call |
| React.ExecuteReact | internal/agent/strategy_react.go:54-387 | the run is complete, its conversation is that of its turns with compaction before every model call, its log and counters agree, and an error is reported exactly when there is no answer |
| React.ConversationKeepsTask | internal/agent/strategy_react.go:41-84 | whatever is added or compacted, the system prompt is the only system message and the task the first of the others |
| ReactOutcome.EveryCallLeaves | internal/agent/strategy_react.go:135-245 | in every run each call of each reply that ran leaves its tool message in its place and its log entry at its number: the refusal and no success if it was not approved, else the truncated output with success or the error without |
| ReactOutcome.RefusedNeverRuns | internal/agent/strategy_react.go:155-188 | what a tool would do for a call that is not approved changes neither the turns nor the conversation nor the log nor the answer of a run |
| ReactOutcome.EveryTurnExplained | internal/agent/strategy_react.go:92-309 | each turn is what the reply before it calls for, its own calls or those its text holds, the cap notice, the one notice of a cut reply or the one request for a summary, or what the end of a round calls for |
| ReactOutcome.EndsIff | internal/agent/strategy_react.go:92-309 | a run ends exactly if its rounds are over, the model call breaks down, or a reply without calls is neither cut short nor an empty one that still gets the request for a summary |
| ReactOutcome.AnswerMeans | internal/agent/strategy_react.go:250-325 | the answer is the last reply's text, for want of one the default or the counted summary if calls were recorded, and else none |
| ReactOutcome.RequestIsSmall | internal/agent/strategy_react.go:78-84 | the model is asked with a conversation within the context budget, unchanged if it was, or with at most eight messages beside the system prompt |
| Anthropic.BuildMessages | internal/llm/anthropic.go:207-262 | the loop builds the system text and the turns |
| Anthropic.OpenerCorrect | internal/llm/anthropic.go:207-262 | how the last turn begins follows from the last messages that count |
| Anthropic.AlternatesIff | internal/llm/anthropic.go:207-262 | roles strictly alternate exactly for conversations without a break: a tool result after plain user text, or calls after an assistant turn |
| Anthropic.FlowsAlternates | internal/llm/anthropic.go:207-262 | conversations in which calls come after user text or results, and results after calls or results, always alternate |
| Alternation.CompactionAlternates | internal/agent/context.go:159-242 | a compaction that acts on such a conversation leaves one that alternates exactly if the kept messages do not begin with a tool result and no user text is taken out from between an assistant turn and tool calls |
| Alternation.ReactAlternatesIff | internal/agent/strategy_react.go:54-310 | every conversation a ReAct run asks the model with alternates, exactly if no compaction on the way keeps messages that begin with a tool result |
| Alternation.BusyRunIsCut | internal/agent/context.go:192-205 | that happens for every context budget of zero or more and more than three iterations, with a task that fills the budget: replies with one, one and two calls, and the fourth request does not alternate |
| WorkerAlternation.RunAlternatesIff | internal/agent/worker.go:193-439 | a worker run on a conversation that ends in the user's side leaves one that alternates exactly if it was given one and does not begin by writing shown code directly after user text; its last turn says which message opens the last turn of the result |
| WorkerAlternation.RunAsksIff | internal/agent/worker.go:193-439 | every conversation such a run asks the model with alternates, exactly if the first one does and no request follows a write directly after user text |
| WorkerAlternation.RetryAlternatesIff | internal/agent/worker.go:491-507 | what a retry leaves, and everything it asks the model with, alternates exactly if what it was given does and does not end in a turn opened by user text; what a retry writes by itself joins its tool message |
| WorkerAlternation.RetriesAlternateIff | internal/agent/worker.go:451-546 | after any retries the conversation alternates exactly if it did before and no retry that counted was added directly behind user text |
| WorkerAlternation.StepAlternatesIff | internal/agent/worker.go:34-68 | the conversation of a whole step, from its prompt to its last retry, alternates exactly if the first run does not begin by writing shown code and no retry that counted was added directly behind user text |
| WorkerAlternation.StepAsksIff | internal/agent/worker.go:34-68 | all conversations a step asks the model with, in the first run and in every retry, alternate exactly if no request follows a first write and no retry starts directly behind user text |
| WorkerAlternation.StartsBehindTextIff | internal/agent/worker.go:332-381 | for a file-creation step, a retry starts directly behind user text exactly if the run before it, the first or a retry, stopped right after its evidence nudge |
| WorkerAlternation.ShownCodeBreaks | internal/agent/worker.go:315-329 | a first reply that only shows code for a file-creation step leads to a conversation that does not alternate |
| WorkerAlternation.RetryBreaks | internal/agent/worker.go:491-507 | a retry of any step accepted right after its nudge starts from a conversation that does not alternate and leaves one |
| WorkerAlternation.TalkerIsRetried | internal/agent/worker.go:332-381 | that happens: for any answer that claims a file, a model giving only this answer is nudged, accepted without evidence, found wanting, retried once, and asked with a conversation that does not alternate |
| WorkerAlternation.RetryNudgeIsLost | internal/llm/anthropic.go:268-273 | the nudge of a retry always follows a tool message and leaves no trace in the turns |
| Anthropic.ToolBlocksKept | internal/llm/anthropic.go:223-258 | every tool call and tool result appears exactly once, with its ID and text, in the original order, whatever the conversation |
| Anthropic.CallsHaveTurns | internal/llm/anthropic.go:223-241 | every assistant message with calls has a turn of its own, its text if not blank and then its calls, to which nothing is added |
| Anthropic.CallsBecomeBlocks | internal/llm/anthropic.go:229-240 | each call becomes a block with its ID, name and arguments, an empty object for none |
| Anthropic.TextsAreShown | internal/llm/anthropic.go:207-262 | every text that is not blank stands, trimmed, in a plain turn of its side unless it is lost in a turn of blocks |
| Anthropic.SystemsAreShown | internal/llm/anthropic.go:207-262 | every system message that is not blank stands in the system text |
| Anthropic.LostIff | internal/llm/anthropic.go:268-273 | a message leaves no trace exactly if it counts for nothing or is text merged into a turn of blocks |
| Hub.StepInv | internal/hitl/hub.go:62-164 | every atomic section keeps: accepted hints were received or sit unread, queues within sixteen, waiters exactly of unfinished requests |
| Hub.EveryInterleaving | internal/hitl/hub.go:62-164 | in every interleaving a returned hint was submitted for its task and is the first accepted; at most two deliveries return true, at most one without a returned hint; queued requests are waiting or finished |
| Hub.SecondHintGoesUnread | internal/hitl/hub.go:112-140 | the bound of two is reached: for any two hints both deliveries can succeed, the second unread |
| HubDelivery.EveryTraceHasHistory | internal/hitl/hub.go:62-164 | every interleaving has its sequence of states, over which the following theorems speak |
| HubDelivery.SubscribersAreActive | internal/hitl/hub.go:147-164 | the subscribers at any time are those who subscribed and have not unsubscribed |
| HubDelivery.EveryRequestArrives | internal/hitl/hub.go:67-106 | a request past its broadcast was offered to everyone subscribed when it was made, and each has taken it or has it queued unless that queue held sixteen requests then |
| HubDelivery.TakesInOrder | internal/hitl/hub.go:99-106 | each subscriber takes requests in the order they were sent to it, and what it has not taken is in its queue in that order |
| HubDelivery.SentAtMostOnce | internal/hitl/hub.go:99-106 | no subscriber is sent a request twice |
| HubDelivery.RepliesMean | internal/hitl/hub.go:84-121 | a request returns that there is no subscriber exactly if nobody was subscribed when it was made, that there is no hint exactly if it gave up, and a hint exactly if it took it from its channel |
| HubDelivery.DeliveriesSucceedIff | internal/hitl/hub.go:126-140 | a delivery finds the waiter exactly while the request's call has not finished, and is then accepted exactly if no accepted hint sits unread |
| Hub.Broker.Register | internal/hitl/hub.go:67-87 | the first locked section of RequestHelp |
| Hub.Broker.OfferNext | internal/hitl/hub.go:99-106 | one non-blocking broadcast send |
| Hub.Broker.Select | internal/hitl/hub.go:113-121 | the select on hint and timeout |
| Hub.Broker.DeleteWaiter | internal/hitl/hub.go:78-82 | the deferred delete |
| Hub.Broker.FindWaiter | internal/hitl/hub.go:127-133 | the lookup of DeliverHint |
| Hub.Broker.TrySend | internal/hitl/hub.go:134-139 | the send of DeliverHint, true exactly if the hint went in |
| Hub.Broker.AddSubscriber | internal/hitl/hub.go:147-154 | Subscribe |
| Hub.Broker.RemoveSubscriber | internal/hitl/hub.go:158-164 | the unsubscribe function |
| Activity.StepInv | internal/dashboard/activity.go:51-93 | every atomic step, with any number of publishers, keeps: no event twice, queues within 64, closed exactly if not subscribed, publishers only owe to open channels |
| Activity.EveryInterleaving | internal/dashboard/activity.go:51-93 | nothing is sent on a closed channel or closed twice, even with repeated cancels; each subscriber gets each event at most once and none from before its subscription |
| Activity.LatestAreKept | internal/dashboard/activity.go:70-93 | with one publisher at a time a queue holds the latest events without a gap, receipt is in order, and after Publish the newest event is queued last or was received |
| Activity.NewestIsLost | internal/dashboard/activity.go:76-92 | from the start, with one subscriber, a full queue and two publishers at once, the newest event is lost while older ones stay |
| Activity.MissingOnlyIfFull | internal/dashboard/activity.go:70-93 | with any number of publishers, an event offered to an open channel since its subscription is missing only if some first select found the queue full |
| Activity.ActivityBroker.AddSubscriber | internal/dashboard/activity.go:51-57 | Subscribe |
| Activity.ActivityBroker.CancelSubscription | internal/dashboard/activity.go:58-65 | the cancel function, harmless when repeated |
| Activity.ActivityBroker.BeginPublish | internal/dashboard/activity.go:70-76 | Publish takes the read lock and iterates the subscribers in any order |
| Activity.ActivityBroker.Send | internal/dashboard/activity.go:77-90 | the first and the third select |
| Activity.ActivityBroker.MakeRoom | internal/dashboard/activity.go:83-86 | the second select |
| Activity.ActivityBroker.Publish | internal/dashboard/activity.go:70-93 | uninterrupted, each subscriber's queue gains the event last and loses its oldest only if it was full |
| Config.DecimalRoundTrip | internal/dashboard/config_persist.go:126-128 | printed numbers read back |
| Config.PutEntry | internal/dashboard/config_persist.go:133-147 | setting a key keeps every other node in place, keeps keys distinct and makes the key read as set |
| Config.PutOther | internal/dashboard/config_persist.go:133-147 | setting a key leaves every other key's value |
| Config.AnswerRoundTrip | internal/dashboard/dashboard.go:158-217 | a GET answer sent back by PUT leaves the in-memory providers unchanged |
| Config.AnswerShows | internal/dashboard/dashboard.go:158-171 | a GET answer has every provider with all settings and the masked key |
| Config.AnswerHidesKeys | internal/dashboard/dashboard.go:158-171 | providers that differ only in their keys have the same answer |
| Config.PutThenGet | internal/dashboard/dashboard.go:178-217 | after a PUT a GET shows the settings it gave and the old ones where it gave none; a key is replaced exactly by one neither empty nor masked; other providers are as before |
| Config.ApplyAgrees | internal/dashboard/config_persist.go:95-112 | writing the settings into a mapping and decoding is decoding and updating the value |
| Config.DiskAgreesIff | internal/dashboard/config_persist.go:34-54 | for any updates in any order, the file decodes to the updated in-memory providers exactly if the section and every updated provider it has are mappings, or the update changes nothing |
| Config.ApplyInPlace | internal/dashboard/config_persist.go:95-112 | in a provider only the six settings change, everything else keeps its position |
| Config.UpdateInPlace | internal/dashboard/config_persist.go:44-54 | in the section only the updated providers change, new ones come last |
| ConfigNodes.FindKey | internal/dashboard/config_persist.go:83-88 | the search loop finds the first entry with the key |
| ConfigNodes.SetScalar | internal/dashboard/config_persist.go:133-147 | overwrites or appends on the node objects, touching nothing else |
| ConfigNodes.ApplyProviderDTO | internal/dashboard/config_persist.go:95-112 | the six settings on the node objects |
| ConfigNodes.FindMapEntry | internal/dashboard/config_persist.go:79-89 | the value node, or null, also for a node that is no mapping |
| ConfigNodes.UpdateProvider | internal/dashboard/config_persist.go:44-54 | finds or makes the provider's node and updates it, leaving the other providers |
| ConfigNodes.UpdateAll | internal/dashboard/config_persist.go:44-54 | the loop over the request in any order |
| ConfigNodes.PersistProviderUpdates | internal/dashboard/config_persist.go:29-54 | the document gets a section if it has none, its other entries keep their nodes, and a top level that is no mapping is an error |
| ConfigNodes.Server.ConfigGet | internal/dashboard/dashboard.go:158-171 | the providers with their keys masked |
| ConfigNodes.Server.Reflect | internal/dashboard/dashboard.go:197-217 | the in-memory update, whatever the order |
| ConfigNodes.Server.ConfigPut | internal/dashboard/dashboard.go:178-223 | nodes and memory are both updated or neither; if the section read as the providers in memory before, then after a save it does exactly if it and every updated provider it has are mappings, or the update changes nothing |
| Memory.ExchangeSort | pkg/memory.go:460-479 | the nested exchange loops sort in place and permute |
| Memory.SortByRelevance | pkg/memory.go:460-468 | descending scores |
| Memory.SortByCreatedAt | pkg/memory.go:471-479 | oldest first |
| Memory.Rearranged | pkg/memory.go:460-479 | a permutation of entries with distinct IDs has the same entries, each once |
| Memory.LimitIsMet | pkg/memory.go:283-326 | a limit that is not negative is met by every compaction |
| Memory.OldestGo | pkg/memory.go:305-322 | no entry that stays is older than one removed for space |
| Memory.InMemoryStore.Store | pkg/memory.go:205-225 | the entry goes under a fresh ID |
| Memory.InMemoryStore.Delete | pkg/memory.go:268-279 | found exactly if present, and gone |
| Memory.InMemoryStore.Recall | pkg/memory.go:229-265 | exactly matching entries that have no time to live or are within it, with their scores, descending, no more than a positive limit, and none omitted that scores higher than one returned |
| Memory.InMemoryStore.RemoveExpired | pkg/memory.go:287-292 | exactly the expired entries go |
| Memory.InMemoryStore.RemoveInOrder | pkg/memory.go:314-322 | the shortest prefix whose removal fits |
| Memory.InMemoryStore.Compact | pkg/memory.go:283-326 | the expired go, then the shortest oldest-first run without which the rest fits |

## Left out

- Model, tool, skill and HTTP calls, files, clocks, logging, progress and activity emission, token usage, memory injection: parameters, arbitrary choices or absent.
- Wording of prompts, nudges, summaries and step numbers in messages; a recorded failure is represented by its tool.
- Regular-expression classifiers (file-creation steps, complexity, claimed files, code blocks) and the SHA-256 of a call: uninterpreted functions. Lower-casing is ASCII only in the keyword tests.
- JSON decoding of thoughts and tool arguments; `JsonScan` covers the cutting out of values, not their decoding.
- The answers of the model to a ReAct or thinking run are indexed by iteration, to a worker run by conversation; every sequence of answers is covered either way.
- Thinking: a transport error whose text happens to say "parse failed" is classed as a reply that cannot be parsed; the driver's own conversation and its compaction are not part of that model.
- Dispatcher: workers are deterministic functions of the step and its snapshot; panics and cancellation are not modelled. With duplicate IDs the outcome that stays is that of any of the steps that share the ID.
- Verification: interceptor writes (internal/agent/worker.go:315-329) add no assistant message, so the gate does not see them; the fix-pass loop, QA classification and operator escalation are not modelled.
- Hub.EveryInterleaving: requests have distinct task IDs; a second request under an ID in use replaces the first one's waiter and is not modelled.
- Activity.LatestAreKept: for one publisher at a time; what several publishers keep is Activity.EveryInterleaving. Events stand for the number of their Publish call.
- Config.DiskAgreesIff: assumes of the YAML library only that it reads back the three scalar forms the code writes (`Config.Reads`); comments, styles, anchors, aliases and merge keys are not modelled, and nodes are listed only once.
- ConfigNodes.PersistProviderUpdates: reading, marshalling, backup and rename of the file, and their errors, are not modelled; content deeper than a provider's settings is covered only by the frame, which forbids touching it.
- Memory.InMemoryStore.Recall: the scoring of a text (tokenizing, counting) is a parameter; map iteration is in any order; IDs are numbers rather than their printed form; one reading of the clock per call.
- React.ExecuteReact: approval severity, memory recording and the tool list of the experience record are not modelled; parallel tools write their slots in any order but do not interact.
- Read-only tool filters, upload checks, the three-state circuit breaker, registries, configuration getters, generated code, hardware detection and the web UI.

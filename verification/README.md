# horsie: the agent loop and its runtime links, modelled and proved

horsie is a managed agent harness. This project models its hard core in Dafny and
proves what that core promises, for every input, every run and every interleaving.

| file | what it models |
|---|---|
| `Messages`, `Histories` | messages, run inputs, and the law every provider enforces: each tool call is answered directly after the message that made it |
| `Compaction` | the token estimate, the budget, the cut and the rewritten history |
| `ToolOutput`, `Decimals` | the final guard on a tool's output, down to UTF-8 |
| `Runs` | the trace a run leaves, and four readings of it: the dialogue, the ledger, the course and the mail |
| `ToolBatch`, `Agent` | the concurrently dispatched batch, and the agent as a class: run loop, compaction, accounting, loop detection |
| `IssuedTokens`, `Registry`, `Listener`, `SocketTransport` | runtimes dialling in: tokens, the transport registry and its waiters, the connection handlers, the correlation of replies |
| `Workspaces`, `Provision`, `BundleSlugs`, `Mcp`, `Strings` | naming, packing, and printing and parsing |
| `AnthropicStream` | the streaming fold with retry |

The provider, the toolbox, the event sink, the cancellation token and the compaction policy
answer arbitrarily (`:= *`), so what is proved of a run holds for all of them. Concurrency is
either an arbitrary next mover (the tool batch) or a transition system whose labels interleave
freely (the listener, the transport). A text is the sequence of its UTF-8 code units, one
`char` per byte; a JSON value is the compact text it renders to.

## Reading the main result

`Agents.Agent.Run` states what one run guarantees, through four readings of its trace. The
environment's part of the trace is written where the environment speaks: the sink's verdict,
the provider's answer, the toolbox's outcome, the sight of a cancellation.

- Dialogue. The history is always what the trace spells. Every request of the loop is the
  history of its moment, every summary request the messages before the chosen cut followed by
  one prompt, every rewrite that cut with the summary obtained for it. At each request a
  compaction that was due has been seen through: abandoned by the policy, without a usable
  summary, or done; and none was tried that was not due. If the history with the
  input appended is balanced, every request is, the summariser's included; on `Completed`
  nothing is owed, and on `Stopped` exactly the stopped calls are. If the input is a user's,
  every request ends with that input and all the run has appended since, verbatim, however
  often the run compacts.
- Ledger. The reported usage is the column sum over the provider's answers whose `MessageStop`
  was accepted; the context size is the last such answer's prompt. One accepted `RunComplete`
  ends an `Ok` run and one attempted `RunAborted` ends an `Err` run, carrying those totals.
- Course. The run keeps to a stage machine: what is recorded is the provider's answer; every
  batch it asks for is judged, by its own fingerprint, as `VerdictFor` says; a batch judged
  `Nudge` is answered call by call with nudges and starts nothing; in a batch judged
  `Dispatch` each call is announced, then executed, then reported, each once and with anything
  else in between, and a `ToolComplete` reports that very execution: its text bounded, its error
  flag and artifacts, every byte either kept or counted as truncated; no request is made before
  the turn is settled, and nothing follows a stuck batch. Each error is the one the trace accounts
  for (`Because`): `Cancelled` iff cancellation was seen, `EventSink` iff the sink refused and
  cancellation was not seen, `StuckInLoop` iff a batch was judged stuck, `Truncated` only on
  an answer cut short that asks for nothing, `Provider` only on an unanswered request.
- Mail. Per assistant turn, the messages of the accepted events are the messages the run
  appended, nudges and boundaries aside; after a failure the journal may be ahead in its last
  group only. Spelled out: the same assistant messages in the same order, and after each the
  same messages in whatever order (`SameStory`).

## Where the code differs from what one would expect

- A batch is nudged only while every batch of the run so far is identical: a loop that starts
  after a different batch is never nudged, only found stuck (`LateLoopIsNeverNudged`,
  `OneOtherBatchSuffices`).
- The fingerprint of a batch joins names and inputs with `:` and a bar, so one call can pass for
  two (`OneCallPassesForTwo`). It tells batches apart wherever names hold no `:` and no
  input goes on past another with a bar (`PrintTellsBatchesApart`), which JSON texts never do.
- A token issued to two runtimes dies for the second when the first rotates
  (`SharedTokenDies`); the two maps stay inverse exactly when no live token is issued again to
  another runtime (`InverseExactlyWhenNeverShared`).
- Removing by id can hit a successor once `stop` also removes by id (`StopCanHitASuccessor`);
  `DeregisterTakesItsOwn` says exactly when.
- A relay can be failed by another's activity (`ReusedIdFailsTheFirst`): exactly when a step
  has a victim (`IntactExactlyWhenNoVictims`), which is a relay still waiting whose id is
  registered again, or withdrawn by another relay of that id whose write failed. A victim can
  only fail (`VictimCanOnlyFail`).
- A relay that registers after the reader drained may wait for ever (`LateRelayHangs`); in runs
  without victims those are the only ones (`HangsExactlyWhenLate`).
- `gen-007` parses (`LeadingZerosAreRead`), and so does `gen-+7`; `ParsedSlugsReprint` says
  exactly which slugs print back.
- Two repositories may get one directory under two spellings: asked for with and without a
  trailing slash, every acceptable path is handed out twice (`TrailingSlashSharesADirectory`).
  It cannot happen if every base is spelled canonically (`CanonicalBasesShareNothing`); among
  bases spelled pairwise differently it happens exactly when two are spellings of one
  directory (`SharedExactlyWhenRespelled`).
- Workspace names can coincide, as those of `/a` and `a` do (`RootedTwinsShareAName`), exactly
  when the normal components do (`NamesCoincideOnlyOnEqualSegments`).
- Compacting a history that a stopped run left keeps its open calls exactly when it has a safe
  boundary (`FoldingKeepsDebts`); without one they are summarised away (`FoldingCanOrphan`).
- `derive_workspaces` documents byte-identical paths as the error; the code compares paths
  component by component, and the model follows the code.
- An abandoned Anthropic attempt emits nothing exactly when it held no delta or stop for a
  block it never opened (`SilentExactlyWhenNothingLoose`). A terminal event of an abandoned
  attempt counts for a later one (`TerminalCarriesOver`), and an empty answer after a retry is
  reported as the earlier error (`IsAnswer`).

## Model

| member | source | states |
|---|---|---|
| `Agents.Agent.Run` | crates/agentcore/src/agent.rs:360-385 | for every environment: all requests balanced, exactly the stopped calls left open, a user's turn never folded away, due compactions seen through, totals equal to the sums over the answers paid for, one `RunComplete` iff `Ok` and one `RunAborted` iff `Err`, every batch received judged exactly and treated as judged, every execution reported as the toolbox answered it, each error accounted for by the trace |
| `Agents.Agent.RunInner` | crates/agentcore/src/agent.rs:387-617 | every exit is one of the ends `Ended` admits: the error's cause is in the trace, or the result is the last answer or the stopped calls |
| `Agents.Agent.CloseLog` | crates/agentcore/src/agent.rs:368-384 | of the finished trace: totals are column sums, what is owed is what the history owes, a user's turn ends every request, every batch recorded was judged in order, and an `Ok` run's accepted events tell the story its history tells |
| `Agents.Agent.Open` | crates/agentcore/src/agent.rs:395-402 | the input is appended exactly when the sink took it; then the loop's invariant holds |
| `Agents.Agent.Loop` | crates/agentcore/src/agent.rs:404-617 | the invariant at the top of the loop leads to a lawful end in at most `maxIterations` requests |
| `Agents.Agent.ReportAbort` | crates/agentcore/src/agent.rs:371-383 | a failed run attempts one `RunAborted` with what was spent, whatever the sink says to it |
| `Agents.Agent.Iterate` | crates/agentcore/src/agent.rs:420-616 | one iteration restores the loop's invariant or ends the run lawfully |
| `Agents.Agent.Exchange` | crates/agentcore/src/agent.rs:449-496 | the provider's answer is banked exactly when its `MessageStop` was accepted, and only then does the context size change; each failure has its cause |
| `Agents.Agent.Record` | crates/agentcore/src/agent.rs:498-511 | the assistant message is appended exactly when the sink took it; then its calls are what is owed |
| `Agents.Agent.Respond` | crates/agentcore/src/agent.rs:498-616 | recording and acting on an answer keeps the invariant on every branch |
| `Agents.Agent.FinishOrTruncate` | crates/agentcore/src/agent.rs:516-546 | an answer without calls completes the run, never when it was cut short at `MaxTokens` |
| `Agents.Agent.Finish` | crates/agentcore/src/agent.rs:601-615 | `Ok` exactly when the sink accepted `RunComplete`, which carries the totals |
| `Agents.Agent.ToolTurn` | crates/agentcore/src/agent.rs:548-616 | the batch received is the batch judged; it is stuck, nudged or dispatched as judged; each way settles the turn or ends the run |
| `Agents.SlideAndJudge` | crates/agentcore/src/agent.rs:548-564 | the bounded window decides what the run's whole record of batches calls for |
| `Agents.Agent.Judge` | crates/agentcore/src/agent.rs:548-564 | the verdict recorded for a batch is `VerdictFor` of all fingerprints so far |
| `Agents.Agent.NudgeAll` | crates/agentcore/src/agent.rs:566-584 | one nudge per call in order, which settles exactly what was owed and emits nothing |
| `ToolBatch.NudgesSettle` | crates/agentcore/src/agent.rs:567-582 | nudges answer the calls they stand in for, as a multiset, whatever ids repeat |
| `Agents.Agent.DispatchBatch` | crates/agentcore/src/agent.rs:590-615 | after a batch the turn is settled, or the run has ended as `Ended` admits |
| `Agents.Agent.Land` | crates/agentcore/src/agent.rs:598-600 | once the results are appended exactly the stopped calls are owed, and they are calls of the batch, whole and in order |
| `Agents.Agent.StopOrGoOn` | crates/agentcore/src/agent.rs:601-615 | the run stops iff some execution stopped it, with exactly those calls |
| `Agents.Agent.Advance` | crates/agentcore/src/agent.rs:641-716 | one call's move, of three: announced, executed, reported; the move of the call is the move the trace shows |
| `Agents.Agent.Execute` | crates/agentcore/src/agent.rs:651-677 | an execution is held until it is reported, unless it stops the run |
| `Agents.Agent.Report` | crates/agentcore/src/agent.rs:678-702 | its `ToolComplete` is accepted exactly when its result is recorded |
| `Agents.WriteReport` | crates/agentcore/src/agent.rs:678-699 | the report is of this call's outcome: its text bounded, its flag, artifacts and spilled bytes, the larger of the two sizes, truncated + retained = original |
| `Agents.Agent.ExecuteToolCalls` | crates/agentcore/src/agent.rs:631-737 | over every interleaving of announcing, executing and reporting, results and stopped calls come out in request order, the accepted `ToolComplete` events are a permutation of the results, and every call was announced, executed and, unless it stopped the run, reported once |
| `Agents.Agent.Fly` | crates/agentcore/src/agent.rs:718-727 | whichever call moves next, the batch ends; only cancellation, which may win between any two moves, leaves it unfinished |
| `Agents.Collect` | crates/agentcore/src/agent.rs:728-736 | splits the outcomes in order; fails only if some call's event was refused |
| `Agents.Agent.AppendResults` | crates/agentcore/src/agent.rs:598-600 | appending a batch's results leaves exactly the stopped calls owed |
| `Agents.Agent.Build` | crates/agentcore/src/agent.rs:182-188 | an agent is built iff the nudge threshold is below the stuck threshold |
| `Agents.Agent.MaybeCompact` | crates/agentcore/src/compaction.rs:273-290 | a compaction that is due is seen through, and otherwise nothing happens at all; the invariant survives, and the history never grows |
| `Agents.Agent.Compact` | crates/agentcore/src/compaction.rs:338-424 | without a policy or with nothing to fold nothing changes; otherwise the policy abandoned it, no usable summary came back, or the history is one summary message and the chosen window; it never grows, and owes what it owed |
| `Agents.Agent.Fold` | crates/agentcore/src/compaction.rs:358-424 | the history is folded at the cut exactly when the policy does not abandon it and the summary is not blank; else it is as it was |
| `Agents.Agent.Replace` | crates/agentcore/src/compaction.rs:375-424 | the history is rewritten, to a message presenting that very summary and the window, whether or not the sink then takes `Compacted` |
| `Agents.Agent.Summarise` | crates/agentcore/src/compaction.rs:454-517 | the summary request is the messages before the chosen cut and one prompt, balanced; a blank summary is a failure |
| `Agents.Agent.ReportNothing` | crates/agentcore/src/compaction.rs:433-451 | an automatic compaction that finds nothing leaves no trace |
| `Runs.OwedKeepsUp` | crates/agentcore/src/agent.rs:402-616 | what is owed, kept message by message along a trace, is what the whole history owes |
| `Runs.TurnSurvives` | crates/agentcore/src/compaction.rs:197-218 | along any faithful trace a turn opened by a user message stays the verbatim end of every request |
| `Runs.FoldingSparesTheTurn` | crates/agentcore/src/compaction.rs:383-396 | a fold at the chosen cut keeps any tail whose only safe boundary is its first message |
| `Runs.BankingTotals` | crates/agentcore/src/agent.rs:482-496 | along any trace, banking answer by answer comes to the column totals, and the context size is the last paid prompt |
| `Runs.NotedIsTrue` | crates/agentcore/src/agent.rs:387-617 | the readings kept entry by entry are the readings of the whole trace |
| `Runs.LogAddsUp` | crates/agentcore/src/agent.rs:485-495 | so the totals kept are the totals of the trace, and what is owed is what the history owes |
| `Runs.BankOneCall` | crates/agentcore/src/agent.rs:273-278 | a cache total is absent exactly when every call left it out |
| `Runs.SlideWindow` | crates/agentcore/src/agent.rs:549-552 | pushing and popping keeps the window at the last fingerprints |
| `Runs.WindowDecides` | crates/agentcore/src/agent.rs:554-564 | the two tests on the window are stuck iff the last `stuck` batches agree, nudge iff all batches so far agree and number in [nudge, stuck) |
| `Runs.PrintTellsBatchesApart` | crates/agentcore/src/agent.rs:262-268 | two batches have one fingerprint iff they ask for the same tools with the same arguments in the same order, ids aside, where names hold no `:` and no input goes on past another with a bar |
| `Runs.SameCallsSamePrint` | crates/agentcore/src/agent.rs:262-268 | batches that ask for the same calls have one fingerprint, whatever the names and inputs hold |
| `Runs.OneCallIsTold` | crates/agentcore/src/agent.rs:262-268 | for single calls the iff needs only names without `:` |
| `Runs.OneCallPassesForTwo` | crates/agentcore/src/agent.rs:262-268 | where separators can be confused, one call has the fingerprint of two |
| `Runs.EveryBatchIsJudged` | crates/agentcore/src/agent.rs:548-552 | in a run that kept its course the fingerprints judged are those of the batches recorded, one by one |
| `Runs.StuckMeansRepeated` | crates/agentcore/src/agent.rs:554-561 | so stuck is exactly the last `stuck` batches asking for the same calls |
| `Runs.NudgeMeansRepeated` | crates/agentcore/src/agent.rs:563-566 | and a nudge exactly all batches so far asking for the same calls, their number in [nudge, stuck) |
| `Runs.ReportTells` | crates/agentcore/src/agent.rs:678-715 | a report answers its call with all of the outcome: text, flag, artifacts and sizes, for results and errors |
| `Runs.MailGroupsMessages` | crates/agentcore/src/agent.rs:686-715 | journal and memory group the accepted and the appended messages of the trace |
| `Runs.SameGroupsSameStory` | crates/agentcore/src/agent.rs:595-600 | equal groups mean the same assistant messages in order and, after each, the same messages in whatever order |
| `Runs.LateLoopIsNeverNudged` | crates/agentcore/src/agent.rs:563-566 | a batch that differs from any earlier one of the run is never nudged |
| `Runs.OneOtherBatchSuffices` | crates/agentcore/src/agent.rs:563-566 | three equal batches are nudged, and are not after another one |
| `ToolBatch.OutcomesPartition` | crates/agentcore/src/agent.rs:728-736 | result messages and stopped calls partition the requested calls, as multisets of ids |
| `ToolBatch.AdvanceOne` | crates/agentcore/src/agent.rs:641-716 | a move uses up a step and adds exactly what it recorded, so every schedule ends |
| `ToolBatch.AllRecorded` | crates/agentcore/src/agent.rs:728-736 | what was recorded in whatever order is, as a multiset, the results in request order |
| `ToolBatch.BatchMoves` | crates/agentcore/src/agent.rs:641-716 | a call's move leaves every state its own call's, comes closer to the end, adds its record and remembers a refusal |
| `ToolBatch.AloftMoves` | crates/agentcore/src/agent.rs:641-716 | announcing, executing or reporting one call is that move of the batch seen from outside, whatever ids repeat |
| `ToolBatch.AllLanded` | crates/agentcore/src/agent.rs:728-736 | a finished batch has nothing waiting, running or left, and its stopped calls are those collected |
| `ToolBatch.StopsInOrder` | crates/agentcore/src/agent.rs:728-736 | the stopped calls are an in-order subsequence of the batch |
| `ToolBatch.OneAnswerEach` | crates/agentcore/src/agent.rs:567-582 | one answer per call answers the batch |
| `Histories.BalancedIsNothingOwed` | crates/agentcore/src/compaction.rs:165-176 | the law stated outright and the left-to-right scan agree on every history |
| `Histories.ScanMeansBalanced` | crates/agentcore/src/compaction.rs:165-176 | the same for a scan that starts with calls owed |
| `Histories.CutBeforeOpener` | crates/agentcore/src/compaction.rs:170-176 | a balanced history cut before an opener gives two balanced halves |
| `Histories.AddBoundary` | crates/agentcore/src/compaction.rs:383-394 | a message without results keeps balance in front or behind |
| `Histories.AppendAnswers` | crates/agentcore/src/agent.rs:598-600 | appended answers settle exactly the calls they answer |
| `Histories.SettleBatch` | crates/agentcore/src/agent.rs:598-615 | what a batch left unanswered is what remains owed |
| `Histories.InputKeepsTheLaw` | crates/models/src/lib.rs:523-586 | a user message may follow exactly a history that owes nothing, results exactly one that owes those very calls |
| `Histories.IdsAreTheCallsIds` | crates/agentcore/src/agent.rs:262-268 | the ids counted of a batch are its calls' ids, each as often as it occurs |
| `Histories.ResultIdsOfBoth` | crates/agentcore/src/compaction.rs:170-175 | the ids a message answers are those of its parts |
| `Histories.SafeMeansNothingAnswered` | crates/agentcore/src/compaction.rs:170-176 | a safe boundary is a user's message that answers no call |
| `Messages.InputIsAllThere` | crates/models/src/lib.rs:523-586 | every field of an input is in its message, in order, and an empty text makes no part |
| `Messages.CallsOfBoth` | crates/agentcore/src/agent.rs:233-245 | the calls of a turn are those of its parts, in order |
| `Messages.TextOfBoth` | crates/agentcore/src/agent.rs:247-260 | the text of a turn is that of its parts, in order |
| `Compaction.SuffixTable` | crates/agentcore/src/compaction.rs:201-205 | the saturating table refines the exact suffix sums |
| `Compaction.ScanBoundaries` | crates/agentcore/src/compaction.rs:207-217 | the earliest safe index within the budget, else the latest safe one, else the length |
| `Compaction.ChooseCut` | crates/agentcore/src/compaction.rs:197-218 | the earliest safe boundary whose window fits, else the latest safe boundary, else the history's length, for every `u32` budget |
| `Compaction.CutIsUnique` | crates/agentcore/src/compaction.rs:178-195 | a history and a budget determine the cut |
| `Compaction.LaterWindowsAreSmaller` | crates/agentcore/src/compaction.rs:201-205 | suffix sums fall with the index |
| `Compaction.NewestSafeMessageIsRetained` | crates/agentcore/src/compaction.rs:184-189 | the newest safe user message survives every cut |
| `Compaction.RecutKeepsTheWindow` | crates/agentcore/src/compaction.rs:383-399 | cutting the rewritten history again folds at most the boundary message, and exactly when it does |
| `Compaction.CompactionKeepsBalance` | crates/agentcore/src/compaction.rs:383-396 | the summariser's request and the rewritten history are balanced if the history was |
| `Compaction.FoldingKeepsDebts` | crates/agentcore/src/compaction.rs:297-308 | folding a history that owes calls asks a balanced request and keeps those calls open, each iff it owes nothing or some boundary is safe |
| `Compaction.FoldingCanOrphan` | crates/agentcore/src/compaction.rs:297-308 | without a safe boundary an open call is summarised away |
| `Compaction.ThresholdsAreShares` | crates/agentcore/src/compaction.rs:37-53 | each threshold is its own percentage of the window, rounded down |
| `Compaction.LargerShareLargerThreshold` | crates/agentcore/src/compaction.rs:37-53 | saturated or not, the larger percentage gives the larger threshold |
| `Compaction.TextCountsItsBytes` | crates/agentcore/src/compaction.rs:126-138 | a text, call, result, thought or report counts a quarter of its bytes in tokens |
| `Compaction.ArtifactCountsItsTokens` | crates/agentcore/src/compaction.rs:149-163 | an image counts a token per 750 pixels, 1500 if its size is unknown, a document 3000 |
| `Compaction.CharsOfBoth` | crates/agentcore/src/compaction.rs:126-138 | a message counts what its parts count |
| `Compaction.SummaryComesFirst` | crates/agentcore/src/compaction.rs:523-531 | the boundary message holds the trimmed summary and then the trimmed state |
| `ToolOutput.BoundToolOutput` | crates/agentcore/src/tool.rs:19-54 | short output is untouched; long output becomes a prefix, the marker and a disjoint suffix, 65533 to 65536 bytes, valid UTF-8, the marker at most five bytes short |
| `ToolOutput.FitMarker` | crates/agentcore/src/tool.rs:29-38 | after two passes marker and kept bytes fill the ceiling, and the marker never overstates |
| `ToolOutput.MarkerSaysHowMany` | crates/agentcore/src/tool.rs:33-36 | a reader of the output finds the count the marker was made with |
| `ToolOutput.CutPoints` | crates/agentcore/src/tool.rs:40-47 | both cuts are character boundaries, lose at most three bytes, and split evenly |
| `ToolOutput.BoundaryWithinFour` | crates/agentcore/src/tool.rs:40-47 | well-formed UTF-8 has a character boundary in any four units, so the loops move at most three |
| `ToolOutput.SplitAtBoundary` | crates/agentcore/src/tool.rs:48-48 | cutting well-formed UTF-8 at a boundary gives two well-formed halves |
| `ToolOutput.TruncationIsValid` | crates/agentcore/src/tool.rs:48-48 | the truncated output is well-formed UTF-8 |
| `IssuedTokens.Tokens.Issue` | crates/runtime-host/src/issued_tokens.rs:50-63 | the two maps are the replay of the operations with one more |
| `IssuedTokens.Tokens.Resolve` | crates/runtime-host/src/issued_tokens.rs:67-69 | a token resolves only to the runtime whose latest live token it is |
| `IssuedTokens.Tokens.RevokeRuntime` | crates/runtime-host/src/issued_tokens.rs:73-80 | the two maps are the replay of the operations with one more |
| `IssuedTokens.ResolvesOnlyTheLatest` | crates/runtime-host/src/issued_tokens.rs:50-80 | in every run: rotation and revocation kill a token |
| `IssuedTokens.AtMostOneLiveToken` | crates/runtime-host/src/issued_tokens.rs:50-63 | a runtime never has two live tokens |
| `IssuedTokens.ResolveMeansLatest` | crates/runtime-host/src/issued_tokens.rs:67-69 | while the maps are inverse, resolving and being latest are equivalent |
| `IssuedTokens.InverseExactlyWhenNeverShared` | crates/runtime-host/src/issued_tokens.rs:50-80 | the maps stay inverse throughout a run iff no live token is issued to another runtime |
| `IssuedTokens.SharedTokenDies` | crates/runtime-host/src/issued_tokens.rs:54-59 | a run in which sharing retires a token still held |
| `Registry.ConnectedRuntimeRegistry.RegisterTransport` | crates/runtime-host/src/connected_registry.rs:45-53 | conservation is kept; the new table is the specified one |
| `Registry.ConnectedRuntimeRegistry.TryRegisterTransport` | crates/runtime-host/src/connected_registry.rs:60-72 | registers iff the id is free; a refusal changes nothing |
| `Registry.ConnectedRuntimeRegistry.ResolveAll` | crates/runtime-host/src/connected_registry.rs:75-79 | everyone waiting is told once, in order, and forgotten |
| `Registry.ConnectedRuntimeRegistry.NotifyWhenReady` | crates/runtime-host/src/connected_registry.rs:89-102 | the receiver is new and queued once; nobody is displaced |
| `Registry.ConnectedRuntimeRegistry.FailPending` | crates/runtime-host/src/connected_registry.rs:120-123 | conservation is kept when waiters are failed |
| `Registry.ConnectedRuntimeRegistry.Remove` | crates/runtime-host/src/connected_registry.rs:131-133 | removing a transport loses no waiter |
| `Registry.NewWaiterIsQueued` | crates/runtime-host/src/connected_registry.rs:89-102 | a new receiver waits exactly once in its runtime's queue |
| `Registry.StepConserves` | crates/runtime-host/src/connected_registry.rs:45-133 | every operation keeps each receiver queued once or answered once |
| `Registry.WaitersAreConserved` | crates/runtime-host/src/connected_registry.rs:45-133 | over every run no waiter is lost, displaced or answered twice, and one told `Ok` saw the transport present |
| `Registry.WhatWaitersAreTold` | crates/runtime-host/src/connected_registry.rs:45-123 | registering tells its runtime's waiters `Ok`, failing tells them the message, nothing else tells anyone anything |
| `Registry.StepOnlyAdds` | crates/runtime-host/src/connected_registry.rs:86-102 | queues grow at the end or are answered whole; answers are never taken back |
| `Listener.OneStep` | crates/runtime-host/src/listener.rs:213-257 | every step of every handler keeps the invariant |
| `Listener.EveryRun` | crates/runtime-host/src/listener.rs:151-257 | the invariant holds over all interleavings |
| `Listener.RegisteredTransportIsAuthentic` | crates/runtime-host/src/listener.rs:151-168 | a registered transport belongs to the one registered connection whose bearer was its runtime's latest token at the upgrade |
| `Listener.WithoutStopsEveryRegistrationHolds` | crates/runtime-host/src/listener.rs:254-257 | without external removals every registered connection holds its own entry |
| `Listener.OnlyAWinnerChangesTheRegistry` | crates/runtime-host/src/listener.rs:219-253 | mismatched, duplicate and losing connections never change the registry |
| `Listener.WhoeverIsAdmittedAnnouncedItself` | crates/runtime-host/src/listener.rs:213-228 | over every run, a connection past its handshake announced, when upgraded, the id its bearer named |
| `Listener.HoldersAnnouncedTheirEntry` | crates/runtime-host/src/listener.rs:213-253 | so every entry is held by a connection that announced the entry's id |
| `Listener.MismatchIsRefused` | crates/runtime-host/src/listener.rs:222-228 | a connection that announces another id is gone for good and never touches the registry |
| `Listener.TurnedAway` | crates/runtime-host/src/listener.rs:215-253 | who gives up or comes second is gone, with the registry as it was |
| `Listener.WaiterHearsOfRegistration` | crates/runtime-host/src/listener.rs:241-243 | whoever waits for a runtime is told `Ok` when it registers |
| `Listener.WaiterHearsOfFailure` | crates/runtime-host/src/connected_registry.rs:118-123 | whoever waits for a runtime that failed is told why |
| `Listener.DeregisterTakesItsOwn` | crates/runtime-host/src/listener.rs:256-257 | a link drop removes its own entry, another's exactly when it was evicted and a successor registered |
| `Listener.StopCanHitASuccessor` | crates/runtime-host/src/process_provider.rs:20-27 | a run in which a late deregistration removes a successor |
| `SocketTransport.OneStep` | crates/runtime-host/src/socket_transport.rs:49-119 | every step of relays and reader keeps table and channels sound |
| `SocketTransport.EveryRun` | crates/runtime-host/src/socket_transport.rs:49-119 | a channel is unanswered iff its sender is in the table or in the reader's hand |
| `SocketTransport.ResolvedForGood` | crates/runtime-host/src/socket_transport.rs:115-118 | a relay resolves at most once |
| `SocketTransport.RepliesAreCorrelated` | crates/runtime-host/src/transport.rs:384-418 | a reply returned carries the relay's own call id |
| `SocketTransport.ReplyIsDelivered` | crates/runtime-host/src/socket_transport.rs:58-64 | a reply with the id of an unanswered relay reaches that relay whole and nobody else, and wakes it with that reply |
| `SocketTransport.UnmatchedReplyIsPassedOver` | crates/runtime-host/src/socket_transport.rs:54-60 | a reply that matches nobody changes nothing |
| `SocketTransport.FailedWriteIsReported` | crates/runtime-host/src/socket_transport.rs:111-114 | a relay whose write failed resolves with that failure |
| `SocketTransport.AbandoningIsPrivate` | crates/runtime-host/src/socket_transport.rs:115-118 | a caller that gives up affects no other relay |
| `SocketTransport.MatchedForGood` | crates/runtime-host/src/socket_transport.rs:58-73 | once received, a reply is not taken away by the drain or by any other relay |
| `SocketTransport.ReceivedReplyDecides` | crates/runtime-host/src/socket_transport.rs:58-118 | over runs: an unanswered relay whose reply arrives before the drain resolves, if at all, with that reply, its own failed write aside |
| `SocketTransport.ClosedLeavesNoEarlyRelayHanging` | crates/runtime-host/src/socket_transport.rs:66-73 | once `closed` fires every relay registered before the drain has its answer |
| `SocketTransport.LateRelayHangs` | crates/runtime-host/src/socket_transport.rs:107-118 | a run in which a late relay waits and no step of the reader can change that |
| `SocketTransport.HangsExactlyWhenLate` | crates/runtime-host/src/socket_transport.rs:66-118 | without victims the relays left hanging are exactly the late ones |
| `SocketTransport.DropsExactlyTheVictim` | crates/runtime-host/src/socket_transport.rs:105-114 | a step drops a live relay's channel iff the relay is the step's victim |
| `SocketTransport.IntactExactlyWithoutVictim` | crates/runtime-host/src/socket_transport.rs:105-114 | a step leaves every live channel intact iff it has no victim |
| `SocketTransport.IntactExactlyWhenNoVictims` | crates/runtime-host/src/socket_transport.rs:49-119 | over a whole run every live channel stays intact iff no step has a victim |
| `SocketTransport.VictimCanOnlyFail` | crates/runtime-host/src/socket_transport.rs:107-118 | whatever happens next, a victim never gets a reply |
| `SocketTransport.NoVictimsNoFalseAlarms` | crates/runtime-host/src/socket_transport.rs:66-73 | without victims a relay is told `Disconnected` only after the drain |
| `SocketTransport.DistinctIdsNeverInterfere` | crates/runtime-host/src/socket_transport.rs:101-119 | runs with distinct outstanding ids have no victims |
| `SocketTransport.ReusedIdFailsTheFirst` | crates/runtime-host/src/socket_transport.rs:107-107 | such victims exist: a run in which a reused id fails the first relay while the link is up |
| `Workspaces.DeriveWorkspaces` | crates/models/src/lib.rs:620-683 | terminates; errs exactly on equal paths or a path without segments; otherwise each name is the closed-form suffix |
| `Workspaces.ChooseNames` | crates/models/src/lib.rs:650-682 | the depth-bumping loop ends at min(length, 1 + longest shared suffix) for every path |
| `Workspaces.BumpRound` | crates/models/src/lib.rs:661-671 | after each round every depth is the smaller of the round and its final value |
| `Workspaces.BumpsExactlyTheUnfinished` | crates/models/src/lib.rs:662-670 | a name collides and can grow iff its depth is not final |
| `Workspaces.NameIsShortestDistinguishing` | crates/models/src/lib.rs:617-619 | the name is the shortest suffix no other path ends in, where there is one |
| `Workspaces.NameIsTheTail` | crates/models/src/lib.rs:652-660 | read back at its slashes, a name is the last segments of its path, in order, as many as its depth |
| `Workspaces.NameEndsThePath` | crates/models/src/lib.rs:652-660 | the name is the joined path or what follows one of its slashes |
| `Workspaces.SegmentsInOrder` | crates/models/src/lib.rs:631-644 | a path's segments are its normal components in path order |
| `Workspaces.NamesCoincideOnlyOnEqualSegments` | crates/models/src/lib.rs:617-619 | two names coincide iff the two paths have the same normal components |
| `Workspaces.RootedTwinsShareAName` | crates/models/src/lib.rs:631-644 | names do coincide: a path from the root and the same path from here |
| `Workspaces.JoinInjective` | crates/models/src/lib.rs:656-659 | joining segments with slashes loses nothing |
| `Provision.ProvisionFromRepos` | crates/models/src/lib.rs:688-762 | one step per repo in order, each in its first free directory; or the first repo's error |
| `Provision.PickDirectory` | crates/models/src/lib.rs:727-732 | terminates with the base or the least unused numbered variant |
| `Provision.CandidatesDiffer` | crates/models/src/lib.rs:728-732 | the numbered candidates are pairwise distinct |
| `Provision.CandidateStaysInside` | crates/models/src/lib.rs:718-731 | numbering a relative directory without `..` cannot make it escape |
| `Provision.DirectoriesAreSafe` | crates/models/src/lib.rs:685-687 | the chosen directories are spelled pairwise differently, relative and free of `..` |
| `Provision.ParentDirIsASegment` | crates/models/src/lib.rs:718-726 | a path is refused for `..` iff that is one of its segments |
| `Provision.DerivedBase` | crates/models/src/lib.rs:705-715 | without a requested directory the base is the URL's last segment, `.git` endings and trailing slashes aside |
| `Provision.RequestedBase` | crates/models/src/lib.rs:698-699 | a requested directory is taken as it is, trimmed |
| `Provision.SchemeIsDropped` | crates/models/src/lib.rs:705-705 | the scheme goes up to the first `://`, if there is one |
| `Provision.StepChecksOut` | crates/models/src/lib.rs:734-759 | the step's parameters name the URL, the directory and, if there is one, the reference |
| `Strings.TrimTakesSpace` | crates/models/src/lib.rs:694-694 | trimming takes white space off both ends, all of it, and nothing else |
| `Provision.CanonicalBasesShareNothing` | crates/models/src/lib.rs:685-687 | canonical bases get directories that differ as directories, not just in spelling |
| `Provision.DifferentBasesAreTaken` | crates/models/src/lib.rs:727-733 | bases spelled pairwise differently are taken as they are |
| `Provision.SharedExactlyWhenRespelled` | crates/models/src/lib.rs:727-733 | and then two repositories share a directory iff their bases are two spellings of one |
| `Provision.TrailingSlashSharesADirectory` | crates/models/src/lib.rs:698-733 | it happens: every acceptable path with and without a trailing slash |
| `BundleSlugs.SlugRoundTrip` | crates/models/src/lib.rs:300-322 | parsing a printed slug gives the version back, exactly for the versions that exist |
| `BundleSlugs.SlugsAreInjective` | crates/models/src/lib.rs:300-305 | distinct versions have distinct slugs |
| `BundleSlugs.ParsedSlugsReprint` | crates/models/src/lib.rs:310-322 | printing a parsed slug gives it back iff it has no plus sign and no superfluous zero |
| `BundleSlugs.LeadingZerosAreRead` | crates/models/src/lib.rs:318-318 | `gen-007` reads as generation 7 |
| `BundleSlugs.PlusIsRead` | crates/models/src/lib.rs:302-318 | `gen-+7` reads as generation 7; a hash is spelled after its prefix |
| `Mcp.SplitRoundTrip` | crates/runtime/src/mcp.rs:53-65 | splitting undoes namespacing iff both parts are non-empty and the server neither contains `__` nor ends in `_` |
| `Mcp.RejoinSplit` | crates/runtime/src/mcp.rs:61-65 | joining any successful split gives the name back |
| `Mcp.WithinCaps` | crates/runtime/src/mcp.rs:86-102 | keeps the first comers that leave room, and kept + dropped = total |
| `Mcp.FirstComersAreMaximal` | crates/runtime/src/mcp.rs:79-85 | they are an order-preserving, inclusion-maximal selection within both caps |
| `AnthropicStream.Complete` | crates/llm-providers/src/anthropic.rs:640-911 | unless the sink refuses, `Ok` exactly when an attempt ran out, terminated, parses and is not empty after a retry, and otherwise which error is returned; its reason and usage are the stream's last word; for well-formed streams every event comes from that attempt and spells the parts |
| `AnthropicStream.StreamTells` | crates/llm-providers/src/anthropic.rs:795-910 | the reason and usage answered with are what the stream says: per field the last event that sets it, the prompt size with the cache tokens added |
| `AnthropicStream.MeterHasTheLastWord` | crates/llm-providers/src/anthropic.rs:795-825 | folding event by event ends on the last word in every field |
| `AnthropicStream.BlockBecomesItsPart` | crates/llm-providers/src/anthropic.rs:867-893 | a block becomes one part that keeps all of it, or none, exactly when it has no text to keep; blank arguments are an empty object; a signature is kept iff asked for |
| `AnthropicStream.ArgumentsFollowTheirCall` | crates/llm-providers/src/anthropic.rs:717-765 | a chunk of arguments follows the start of the call it names |
| `AnthropicStream.StopsArePassedOn` | crates/llm-providers/src/anthropic.rs:789-794 | every block stop of the stream is passed on, in order |
| `AnthropicStream.TerminatedBy` | crates/llm-providers/src/anthropic.rs:795-829 | a stream is terminated by a `message_delta` or a `message_stop` |
| `AnthropicStream.Assess` | crates/llm-providers/src/anthropic.rs:840-893 | what was streamed is an answer iff it is not empty after a retry, terminated and parses; else which error it is |
| `AnthropicStream.BlameTheFirst` | crates/llm-providers/src/anthropic.rs:867-881 | the error of unparseable arguments names the tool of the least such block |
| `AnthropicStream.StreamWithRetry` | crates/llm-providers/src/anthropic.rs:649-838 | the answer is folded from one attempt alone; the earlier ones failed retryably before any block, and emitted nothing iff nothing in them was loose; any error is the fatal one or the last retry's |
| `AnthropicStream.RunAttempt` | crates/llm-providers/src/anthropic.rs:668-835 | blocks, usage and emissions are the folds of what was consumed; how the attempt ends is exact |
| `AnthropicStream.AssembleParts` | crates/llm-providers/src/anthropic.rs:857-893 | the parts in ascending index order, or the first unparseable tool input |
| `AnthropicStream.ViewsAgree` | crates/llm-providers/src/anthropic.rs:697-830 | for a well-formed stream, what the events spell for each block is what the fold holds |
| `AnthropicStream.PartsAgree` | crates/llm-providers/src/anthropic.rs:867-893 | so each part can be read off the events |
| `AnthropicStream.AssembledAsRead` | crates/llm-providers/src/anthropic.rs:857-893 | assembling the blocks and reading the events give the same parts or the same error |
| `AnthropicStream.PartsAreSpelled` | crates/llm-providers/src/anthropic.rs:857-893 | the parts are what the events spell, over exactly the blocks that were opened |
| `AnthropicStream.SilentExactlyWhenNothingLoose` | crates/llm-providers/src/anthropic.rs:679-690 | an attempt that opened no block emitted nothing iff no delta or stop in it was loose |
| `AnthropicStream.AbandonedAttemptsAreSilent` | crates/llm-providers/src/anthropic.rs:649-690 | all abandoned attempts together emitted nothing iff nothing in any of them was loose |
| `AnthropicStream.WellFormedIsNotLoose` | crates/llm-providers/src/anthropic.rs:741-794 | a well-formed attempt that opened no block emitted nothing |
| `AnthropicStream.TerminalCarriesOver` | crates/llm-providers/src/anthropic.rs:643-666 | a run in which an attempt without a terminal event is answered from because an abandoned one had one |

## Left out

- HTTP, SSE and WebSocket I/O, process spawning, timeouts, clocks and UUIDs: inputs, arbitrary answers or dropped.
- The streamed deltas a provider emits during a run: `AnthropicStream` covers them on their own; the run's trace does not carry them.
- Artifact hydration, system prompts, tool specifications, the summary prompt's text and `summarise_all`: they shape a request without changing its messages.
- Cancellation is not monotone: each check is answered arbitrarily, which allows more runs than the code has.
- A provider call that loses to cancellation before it is sent still counts as a request in the trace.
- Overflow of summed `u32` usage and of `tokens_after`, and of the `i32` suffix counter in the directory search: natural numbers.
- Strings.Trim: ASCII white space only, where Rust's `trim` also removes Unicode white space.
- Non-Unix and non-UTF-8 paths: a path is its Unix components as text.
- Locks that are poisoned: `IssuedTokens` then does nothing, which the model never does.
- Provision.SharedExactlyWhenRespelled: for bases spelled pairwise differently; with repeated bases numbered variants come into play, and only canonical spelling is shown to be enough.
- The accept loop's failure counter and `clamp`: easy.
- The OpenAI and Responses providers, thinking dialects and error classification: wire shaping and finite tables.
- The server crates, the web client, the CLI and the sandbox.

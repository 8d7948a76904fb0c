# MARS workload controllers: a verified model

This project models the request-admission and protocol-translation code of the
MARS agent-serving experiments and proves what that code promises, for all inputs,
all interleavings and all runs. Each module follows one component.

- `Concur`: the Concur admission controller (adaptive window, pausing and resuming at gate files).
- `MarsWindow`, `MarsSelection`, `Mars`: the MARS admission controller (AIMD window and caps, candidate order and
  greedy selection, whole rounds and runs). `MarsRounds` says which requests a round admits without sorting or
  selecting, `MarsControl` when the window moves and how long telemetry is trusted, `MarsTail` what rounds with only
  long requests do, `MarsProgress` when the queue empties.
- `CodexRpc`, `CodexCalls`: the app-server request/response driver, one step per lock section or queue operation, and
  what becomes of each request over a run.
  Reply correlation follows section 5 (Response object) of the JSON-RPC 2.0 specification.
- `Lifecycle`, `LifecycleRecords`, `LifecycleTrace`: the lifecycle collector, what its records say about the calls of a
  run, and what the published trace shows of the records.
- `Bridge`, `BridgeTurns`, `BridgeTools`, `BridgeEnds`, `BridgeRuns`: the Codex bridge that drives the collector, which
  turn it holds for active, which round a tool belongs to, which events make it raise, and what becomes of the
  proxy's rows.
- `Namespace`, `NamespaceRequest`: flattening namespaced tools to fresh aliases and naming calls back, and the flat
  request field by field.
- `History`, `HistoryReading`: Responses input history to Chat messages, with a decoder, and how each raw item is read.
- `ResponsesStream`, `StreamChannels`, `StreamEndings`, `StreamPositions`: Chat completion chunks to the Responses event
  stream.
- `ShellSpans`, `ShellRows`: pairing shell rows into spans and matching them to native calls.
- `LiveTools`, `LiveRows`: bracketing streamed tool rows and counting open tools.
- `Sequences`, `Text`: shared facts about sequences, decimal numerals and whitespace.

Code that updates state in loops is written as methods with loops, or as classes,
and each is proved equal to a specification function; the lemmas state what that
function guarantees. Clocks, telemetry, completions, thread interleavings, prefill
estimates and random ids are inputs. Floats are `real`; `round` is half-to-even.

## Findings

Places where the code does less than one might expect. Each has members that state it, with the exact
condition under which the code does meet the property.

- A MARS queue can wait forever: a lone long request whose block cost exceeds the device stays in the backlog over
  any number of rounds (`Mars.OversizedRequestIsNeverAdmitted`, and from the start of a run
  `Mars.OversizedRequestWaitsFromTheStart`). With nothing running, a round admits something exactly when
  `Mars.CanProgress` holds (`Mars.RoundAdmitsExactlyWhen`); if it holds before every round while something waits,
  the queue empties (`MarsProgress.BacklogEmpties`).
- The repository's README says each waiting workflow's block demand is estimated against the budget; the code
  charges long requests only (`MarsSelection.OnlyLongsAreCharged`), and a short one is admitted whatever the budget
  (`MarsSelection.ShortsFillFreeSlots`).
- That README also says large requests are admitted "at most one at a time while earlier workflows are still
  active". The code does not: beside a tracked running request one round can submit two more
  (`MarsTail.SeveralBesideATrackedOne`, in a reachable state). `MarsTail.TailRoundSubmitsSeveralExactlyWhen`
  gives the exact condition. The model follows the code.
- That README also says large requests drain "within the live block budget". When only large requests wait, the code
  uses a fixed share of the device instead and never looks at the free blocks (`MarsTail.TailIgnoresLiveBudget`): a
  lone one is admitted with no free block reported (`MarsTail.AdmittedWithNoFreeBlocks`). A lone one goes beyond the
  live budget exactly when the tail cap is positive and its cost lies above the live and within the tail budget
  (`MarsTail.LoneLongExceedsLiveBudgetExactlyWhen`).
- The end of an active tool, or the start of a known tool that has neither started nor ended, leaves the active-tool
  set inexact exactly when it fails after it began to write the record (metadata that cannot be encoded, a blank end
  status): `Lifecycle.ActiveStaysExactUnlessMidway`, with runs in `Lifecycle.MidwayFailureExample`.
- An `item/started` for a finished tool moves the bridge's tool state back to running
  (`Bridge.ToolsStayRefinedUnlessRestarted`; over whole runs, tool by tool, `Bridge.ToolIsMirroredUnlessRestarted`).
  The next report of that tool's end raises, and no other event on a tool does
  (`Bridge.ToolEventRaisesExactlyWhenBroken`; a run in `Bridge.RestartedToolExample`).
- A proxy event raises exactly for the end of an attempt that has ended, or for the start that binds, in an active
  turn, an attempt with two buffered ends (`BridgeEnds.BackendEventRaisesExactlyWhen`). An end of an unbound attempt
  is only buffered, however often it is reported (`BridgeEnds.UnboundEndIsBuffered`). A turn's start raises exactly
  when some attempt, bound or started among the buffered rows, has two ends among those recorded and buffered
  (`BridgeEnds.TurnStartRaisesExactlyWhen`). Runs from the start: `BridgeEnds.SecondEndExample`.
- A reply is an error for the reader exactly when its id is not marked as expired and either no call holds the id or
  the queue is full when the reply is put (`CodexRpc.ReplyIsFatalExactlyWhen`). So any reply to a request that was
  answered and has left is fatal (`CodexRpc.ReplyAfterAnswerIsFatal`), while one that arrives between taking the
  answer and removing the registration is dropped unnoticed (`CodexRpc.ReplyBeforeRemovalIsDropped`,
  `CodexRpc.SecondReplyIsDropped`). With one reply per request, only the reply to a request that was written and
  then given up because recording it failed is fatal (`CodexRpc.SingleReplyIsFatalExactlyWhenLost`, with a run in
  `CodexRpc.LostReplyIsFatal`).
- A plain call whose name equals an alias comes back namespaced (`Namespace.PlainCallUnderAliasIsClaimed`); the
  round trip holds exactly when there is none (`Namespace.RestoringUndoesAliasing`).
- The output position of a tool call can differ between its running and its done events
  (`StreamPositions.LateTextExample`). It agrees for all calls exactly when every atom that speaks about a call comes
  before the text if the call's final place is its index, and after the text if the place is one more
  (`StreamPositions.PositionsAgreeExactlyWhen`); late text and gapped indices can cancel out
  (`StreamPositions.LateTextAndGapCanAgree`). With late text a call and the message can both be added at position 0
  (`StreamPositions.LateTextSharesPosition`). An empty reply reports a message done that it never added
  (`ResponsesStream.EveryItemTellsItsTale`).

## Model

| member | source | states |
|---|---|---|
| Concur.WindowStaysInRange | experiments/openhands/run_task_workload.py:701-731 | For every telemetry the next window lies in 1..window_max, and at or above the low watermark it never grows. |
| Concur.WindowMaxIsLargest | experiments/openhands/run_task_workload.py:1525-1533 | The window maximum is the largest number of agents that the workers and the option both allow. |
| Concur.WindowStartsAsAsked | experiments/openhands/run_task_workload.py:1534-1537 | The first window is the one asked for, or the maximum if that is smaller. |
| Concur.TickMovesWindowExactlyWhen | experiments/openhands/run_task_workload.py:713-731 | A tick grows the window if and only if usage is below the low watermark and the window below the maximum, by the increment; it cuts it if and only if usage is high and the known hit rate too low, to the largest whole part; otherwise it holds. |
| Concur.LowUsageRecoversWindow | experiments/openhands/run_task_workload.py:713-717 | k ticks of low usage give min(maximum, window + k increments). |
| Concur.ThrashingShrinksGeometrically | experiments/openhands/run_task_workload.py:718-726 | k ticks of high usage and low hit rate leave at most the window times the k-th power of the factor, or one agent. |
| Concur.WindowFollowsTicks | experiments/openhands/run_task_workload.py:1525-1807 | Over every run the window is what the run's control ticks make of the first one; nothing else moves it. |
| Concur.Reconcile | experiments/openhands/run_task_workload.py:1656-1735 | The shrink loop followed by the refill loop reaches exactly the closed-form reconciled state. |
| Concur.Shrink | experiments/openhands/run_task_workload.py:1660-1683 | The loop keeps the front of the active order, closes the gates of the cut suffix and appends it reversed to the paused order. |
| Concur.Refill | experiments/openhands/run_task_workload.py:1685-1735 | The loop resumes from the front of the paused order, and only then admits from the front of the backlog, up to the window. |
| Concur.ShrinkingIsShrunk | experiments/openhands/run_task_workload.py:1660-1683 | Pausing one agent at a time gives the kept prefix, and the reversed suffix at the end of the paused order. |
| Concur.RefillingIsRefilled | experiments/openhands/run_task_workload.py:1685-1735 | Resuming and admitting one at a time equals resuming a front of the paused order and then admitting a front of the backlog. |
| Concur.PopPaused | experiments/openhands/run_task_workload.py:1686-1690 | Skipping stale entries never skips anything while the orders match the sets: the front agent is returned. |
| Concur.CollectCompleted | experiments/openhands/run_task_workload.py:1125-1172 | The collection loop has the effect of completing the given requests one after the other. |
| Concur.CompleteAllKeepsInv | experiments/openhands/run_task_workload.py:1633-1654 | Completions in any order keep the invariant and remove exactly the completed futures. |
| Concur.ReconcileKeepsInv | experiments/openhands/run_task_workload.py:1656-1735 | Orders enumerate disjoint sets without duplicates, gates are the active set, counts stay within the window maximum. |
| Concur.ReconcileIsWorkConserving | experiments/openhands/run_task_workload.py:1656-1735 | Afterwards active is at most the window; below it, paused and backlog are both empty; uncollected work means an open gate. |
| Concur.PausedAgentsKeepTheirPlace | experiments/openhands/run_task_workload.py:1627-1735 | Over any step, an agent that stays paused is never pushed back in the paused order. |
| Concur.ShrinkThenGrow | experiments/openhands/run_task_workload.py:1660-1735 | A shrink and the matching growth return every agent, with the cut suffix reversed and nothing admitted. |
| Concur.EveryReachableStateIsSafe | experiments/openhands/run_task_workload.py:1525-1807 | Over every run: active plus paused equals the futures, at most window_max, at most the workers; admission is in emission order; nothing is admitted past a paused agent. |
| MarsWindow.RoundIsNearestTiesToEven | experiments/openhands/run_task_workload.py:2005-2014 | Half-even rounding returns the nearest integer, the even one on ties. |
| MarsWindow.CapShrinksWithUsage | experiments/openhands/run_task_workload.py:1990-2014 | The KV cap is non-increasing in usage across all three branches and the rounding, and stays between window minimum and pool size. |
| MarsWindow.CapsArePositive | experiments/openhands/run_task_workload.py:1811-2014 | The CPU and KV caps lie in 1..pool size for every telemetry. |
| MarsWindow.LimitStaysInRange | experiments/openhands/run_task_workload.py:2065-2123 | The limit stays between window minimum and pool size and the effective limit is at least 1. |
| MarsWindow.OverloadShrinksGeometrically | experiments/openhands/run_task_workload.py:2069-2100 | k overloaded ticks give at most max(window minimum, start times factor to the k), and no tick raises the limit. |
| MarsControl.TickMovesLimitExactlyWhen | experiments/openhands/run_task_workload.py:2069-2104 | Within its caps, the window grows if and only if relaxed and below the caps, by the increment; it shrinks if and only if pressed and above the minimum, to the largest whole part; otherwise it stays. |
| MarsControl.CapsPullTheLimitDown | experiments/openhands/run_task_workload.py:2100-2104 | A window beyond a cap comes down to it on any tick. |
| MarsControl.RelaxedTicksRecover | experiments/openhands/run_task_workload.py:2083-2099 | k relaxed ticks under full caps give min(pool size, start + k increments). |
| MarsControl.ControlIsPaced | experiments/openhands/run_task_workload.py:2065-2121 | The window moves only on a control tick; ticks are an interval apart, and one is taken whenever it is due. |
| MarsControl.RoundReadsInput | experiments/openhands/run_task_workload.py:1827-2063 | Which input and which memory each signal of a round is computed from, and what the round remembers. |
| MarsControl.CpuPressureLasts | experiments/openhands/run_task_workload.py:1855-1868 | Over any readings, CPU pressure is on if and only if some reading was high and none since was low. |
| MarsControl.KvPressureLasts | experiments/openhands/run_task_workload.py:2016-2028 | The same for KV pressure: high is unreliable telemetry or usage at the target, low is reliable usage at the low mark. |
| MarsControl.CpuCapFitsWorkers | experiments/openhands/run_task_workload.py:1837-1849 | The CPU cap is the least whole number of requests that reaches workers times the mean watermark (at least 0.1), within the window's range. |
| MarsControl.KvCapWithoutUsage | experiments/openhands/run_task_workload.py:1993-1998 | Without reliable telemetry the cap is the one for that case; with no usage known it is the pool. |
| MarsControl.KvCapFollowsLine | experiments/openhands/run_task_workload.py:2000-2014 | The KV cap is the pool up to the low mark, the minimum from the target on, and the nearest whole number to the line between. |
| MarsControl.BudgetKeepsReserve | experiments/openhands/run_task_workload.py:1977-1980 | The block budget is the largest number of blocks whose use leaves the reserve share of the device free. |
| MarsControl.UsageOfReport | experiments/openhands/run_task_workload.py:1963-1976 | The reported usage counts; without one, the share of blocks that are not free. |
| MarsControl.ReliableAfterPollExactlyWhen | experiments/openhands/run_task_workload.py:1884-1938 | After a poll telemetry is reliable if and only if the report is complete, or the last complete one is young enough and the poll brought nothing or a usage. |
| MarsControl.PollShows | experiments/openhands/run_task_workload.py:1884-1938 | What the cache shows after each kind of poll, and what it remembers. |
| MarsControl.ReliableMeansRecentlyReported | experiments/openhands/run_task_workload.py:1884-1990 | Over any polls: reliable telemetry shows block counts that a complete report gave, no longer ago than the staleness limit. |
| MarsSelection.BlocksJustFit | experiments/openhands/run_task_workload.py:733-738 | The block count is the least number of blocks that holds the tokens. |
| MarsSelection.SortedSorts | experiments/openhands/run_task_workload.py:2201-2218 | Candidates are sorted by the chosen order. |
| MarsSelection.SortedKeepsEntries | experiments/openhands/run_task_workload.py:2201-2218 | Sorting neither loses, adds nor repeats entries. |
| MarsSelection.GreedyPass | experiments/openhands/run_task_workload.py:2224-2252 | The selection loop computes the greedy pick. |
| MarsSelection.GreedyStaysWithinLimits | experiments/openhands/run_task_workload.py:2224-2252 | For any order: slots, long cap and telemetry gate hold; chosen blocks plus the remaining budget equal the budget. |
| MarsSelection.GreedyIsMaximal | experiments/openhands/run_task_workload.py:2194-2252 | With a slot left, every unchosen candidate is long and barred by telemetry, the long cap or the final remaining budget. |
| MarsSelection.EarlierShortsComeFirst | experiments/openhands/run_task_workload.py:2201-2252 | A short candidate is chosen whenever any later candidate is. |
| MarsSelection.ShortsFillFreeSlots | experiments/openhands/run_task_workload.py:2224-2252 | If a slot is left, every short candidate was chosen. |
| MarsSelection.IncreasingCandidatesIncreasingChoice | experiments/openhands/run_task_workload.py:2201-2252 | Candidates in emission order give a choice in emission order. |
| MarsSelection.TailFill | experiments/openhands/run_task_workload.py:2273-2290 | The fill loop computes the filled pick. |
| MarsSelection.FillingChangesNothing | experiments/openhands/run_task_workload.py:2254-2290 | The fill pass over barred candidates returns the pick unchanged. |
| Mars.ProcessSubmissions | experiments/openhands/run_task_workload.py:1809-2329 | One round as code: refresh, control, select, submit and keep the rest, equal to the round function. |
| Mars.Select | experiments/openhands/run_task_workload.py:2194-2290 | First pass and tail fill together submit exactly the first pass's choice. |
| Mars.KeepWaiting | experiments/openhands/run_task_workload.py:2296 | The loop keeps exactly the unchosen backlog, in order. |
| Mars.LeftForTail | experiments/openhands/run_task_workload.py:2261-2272 | The fill candidates are the unchosen ones, cheapest first. |
| Mars.BudgetFits | experiments/openhands/run_task_workload.py:2178-2192 | In either mode the remaining budget plus the blocks in use fit the device. |
| Mars.RoundKeepsBounds | experiments/openhands/run_task_workload.py:1809-2329 | One round with arbitrary plausible telemetry keeps all bounds, with an effective limit in 1..pool size. |
| MarsRounds.RoundFollowsRule | experiments/openhands/run_task_workload.py:2123-2329 | The reference form of a round, with no sorting and no loop: each waiting request is admitted if and only if, after those before it in priority, a place and (for a long one) room are left; jobs carry their charge and the others wait on in order. |
| MarsRounds.SubmissionFollowsPriority | experiments/openhands/run_task_workload.py:2201-2252 | Jobs are submitted in the order of priority. |
| MarsRounds.LeftOutComesLast | experiments/openhands/run_task_workload.py:2201-2252 | If a request is left out for want of a place only, every admitted one is before it in priority. |
| MarsRounds.ShortsAndSmallOnesFirst | experiments/openhands/run_task_workload.py:2211-2219 | Neither draining nor calm nor CPU overloaded: if a short request is left out, everything admitted is short and comes before it by (prefill, emission). |
| MarsRounds.LargestFirstWhenCpuOverloaded | experiments/openhands/run_task_workload.py:2205-2210 | CPU overloaded and not draining: none is left out for want of a place while a smaller one is admitted. |
| MarsRounds.ArrivalOrderWhenDrainingOrCalm | experiments/openhands/run_task_workload.py:2201-2204 | When only long requests wait under reliable telemetry, or without pressure and with places for all, submission is in emission order. |
| Mars.AdmissionKeepsAccounts | experiments/openhands/run_task_workload.py:2296-2329 | Each emitted request stays in exactly one of backlog, running or collected. |
| Mars.EveryReachableStateIsSafe | experiments/openhands/run_task_workload.py:2123-2329 | Over every run: accounts exact, window in range, running at most the pool, longs at most max(long cap, tail cap), charged blocks at most the device. |
| Mars.RoundAdmitsExactlyWhen | experiments/openhands/run_task_workload.py:2123-2293 | With nothing running, a round admits something if and only if a short waits, or telemetry is reliable, the tail cap is positive and some long fits the tail budget. |
| Mars.OversizedRequestIsNeverAdmitted | experiments/openhands/run_task_workload.py:2224-2293 | A lone long request larger than the device stays alone in the backlog over every sequence of rounds with plausible telemetry. |
| Mars.OversizedRequestWaitsFromTheStart | experiments/openhands/run_task_workload.py:2224-2293 | From the initial state: such a request is emitted, and no later round of the run admits it. |
| MarsProgress.CycleShrinksExactlyWhen | experiments/openhands/run_task_workload.py:1809-2329 | Completing everything that runs and then one round shortens the backlog if and only if the round can progress, and otherwise leaves it as it is. |
| MarsProgress.CyclesAreARun | experiments/openhands/run_task_workload.py:1809-2329 | Such cycles are a run of the controller's own steps, whatever the plausible telemetry. |
| MarsProgress.BacklogEmpties | experiments/openhands/run_task_workload.py:1809-2329 | From every reachable state, with no more arrivals and progress possible before each round, as many cycles as requests wait empty the backlog, and every emitted request is running or collected. |
| MarsSelection.OnlyLongsAreCharged | experiments/openhands/run_task_workload.py:2224-2249 | Each chosen job is charged its block cost if it is long and the block size is known, and nothing if it is short. |
| MarsTail.GreedyTakesTwoExactlyWhen | experiments/openhands/run_task_workload.py:2224-2252 | Among long candidates two or more are chosen if and only if slots and cap places for two are free and, after the first that fits the budget, a later one fits the rest. |
| MarsTail.TailRoundSubmitsSeveralExactlyWhen | experiments/openhands/run_task_workload.py:2194-2252 | A tail round submits two or more if and only if no running request is untracked, two pool slots and two tail places are free, and two waiting requests fit in turn. |
| MarsTail.CrowdedIsReachable | experiments/openhands/run_task_workload.py:1809-2329 | A concrete run that reaches a state with one tracked long request running and two waiting. |
| MarsTail.SeveralBesideATrackedOne | experiments/openhands/run_task_workload.py:2194-2197 | In that state one tail round submits two more beside the running one. |
| MarsTail.TailIgnoresLiveBudget | experiments/openhands/run_task_workload.py:2180-2190 | In tail mode the selection is the same for every live block budget. |
| MarsTail.LoneLongExceedsLiveBudgetExactlyWhen | experiments/openhands/run_task_workload.py:2178-2252 | With nothing running, a lone long request is admitted beyond the live budget if and only if the tail cap is positive and its cost lies above the live budget and within the tail budget. |
| MarsTail.TailStaysWithinLargeLiveBudget | experiments/openhands/run_task_workload.py:2178-2252 | A live budget of at least the tail budget bounds the blocks in use after any tail round. |
| MarsTail.AdmittedWithNoFreeBlocks | experiments/openhands/run_task_workload.py:2180-2252 | A concrete run that admits a long request while the reported live budget is zero. |
| Mars.LongsWaitForAllShorts | experiments/openhands/run_task_workload.py:2201-2252 | In the short-first order a long request is admitted only if every waiting short one is. |
| Mars.SmallestShortsAreAdmitted | experiments/openhands/run_task_workload.py:2201-2252 | Admitted shorts come before every short left out in the order (prefill, emission). |
| Mars.ArrivalOrderIsKept | experiments/openhands/run_task_workload.py:2201-2252 | In tail mode and at low pressure submissions are in emission order. |
| Mars.RemainingKeepsOrder | experiments/openhands/run_task_workload.py:2296 | The remaining backlog keeps its order. |
| Mars.TailFillChangesNothing | experiments/openhands/run_task_workload.py:2254-2290 | With slots left after the first pass, filling from any of the unchosen candidates changes nothing. |
| CodexRpc.StepKeepsInv | experiments/agent_cli/codex_app_server.py:802-960 | Every enabled step of requesters, reader and fatal setters keeps the protocol invariant. |
| CodexRpc.NoLostWakeup | experiments/agent_cli/codex_app_server.py:802-827 | In every interleaving, once a fatal-error call has finished, a requester still waiting finds its queue full. |
| CodexRpc.FirstErrorIsSticky | experiments/agent_cli/codex_app_server.py:1104-1116 | The first fatal error is never replaced, and every requester told of a fatal error is told that one. |
| CodexRpc.RepliesAreCorrelated | experiments/agent_cli/codex_app_server.py:802-845 | A reply reaches only the requester with its id, one message reaches at most one requester, ids are not reused. |
| CodexRpc.FirstReplyHasAPlace | experiments/agent_cli/codex_app_server.py:928-960 | With no fatal error, a first reply to a sent request finds a registered queue or an expired mark, unless the request was lost, and then it finds neither. |
| CodexRpc.LateReplyIsHarmless | experiments/agent_cli/codex_app_server.py:928-960 | With one reply per request, no reader step sets the fatal error, wherever the reply falls around timeout, mark and removal, unless the request was lost to a failed recording. |
| CodexRpc.SingleReplyIsFatalExactlyWhenLost | experiments/agent_cli/codex_app_server.py:859-960 | With one reply per request, reading it is an error if and only if the request was written and then given up because recording it failed. |
| CodexRpc.ReplyIsFatalExactlyWhen | experiments/agent_cli/codex_app_server.py:942-960 | In every reachable state and for all steps between look-up and put: an error if and only if the id is unmarked and either no call holds it or its queue is full. |
| CodexRpc.FullQueueHoldsEarlierReply | experiments/agent_cli/codex_app_server.py:955-960 | With no fatal error, a full queue holds an earlier reply to the same id that nobody has taken. |
| CodexRpc.ReplyAfterAnswerIsFatal | experiments/agent_cli/codex_app_server.py:928-960 | Any reply to a call that was answered and has left is an error, whatever others do meanwhile, and every fatal-error call the reader then makes leaves the fatal error set. |
| CodexRpc.ReplyBeforeRemovalIsDropped | experiments/agent_cli/codex_app_server.py:814-826 | Between taking the answer and removing the registration one more reply is put and never seen. |
| CodexRpc.SecondReplyIsDropped | experiments/agent_cli/codex_app_server.py:814-826 | A concrete run in which a second reply to an answered request is dropped. |
| CodexRpc.SecondReplyIsFatal | experiments/agent_cli/codex_app_server.py:942-960 | A concrete run in which a second reply to an answered request sets the fatal error. |
| CodexRpc.LostReplyIsFatal | experiments/agent_cli/codex_app_server.py:859-960 | A concrete run in which the only reply to a request given up after it was written sets the fatal error. |
| CodexCalls.OutcomeIsDecidedByItsStep | experiments/agent_cli/codex_app_server.py:802-849 | Over every run: a departed request is answered if and only if it took a reply, and then with its queue's content at that step; timed out if and only if it marked its id; failed if and only if a send step failed; refused if and only if a fatal error was set when it was registered. |
| CodexCalls.ReplyIsDelivered | experiments/agent_cli/codex_app_server.py:814-849 | A reply put into the empty queue of a waiting request is the one it returns, whatever happens in between, even a fatal error or the end of its waiting time. |
| CodexCalls.FatalCallReachesEverybody | experiments/agent_cli/codex_app_server.py:1104-1116 | Whoever has entered the fatal-error function can finish it by its own steps, and then every request still waiting finds its queue full. |
| CodexCalls.WaitingCanLeave | experiments/agent_cli/codex_app_server.py:814-826 | A waiting request is never stuck: with a full queue it can take the reply and leave answered; with an empty one it can expire, is marked, and leaves timed out. |
| CodexCalls.SendingCanLeave | experiments/agent_cli/codex_app_server.py:811-826 | A registered request can be sent and wait; after any failure to send it can leave failed, and a broken pipe sets the fatal error. |
| CodexCalls.NewRequestIsRegistered | experiments/agent_cli/codex_app_server.py:804-813 | A new request gets an id of its own and an empty registered queue, or is refused after a fatal error. |
| CodexCalls.MarkAbsorbsOneReply | experiments/agent_cli/codex_app_server.py:819-826 | Over every run: an id is marked as expired if and only if its request has timed out and no reply to it has been read since. |
| CodexCalls.AnswerIsReturned | experiments/agent_cli/codex_app_server.py:814-849 | A concrete run whose request ends answered with its reply. |
| Lifecycle.LifecycleCollector.RequestStarted | experiments/agent_cli/lifecycle_collector.py:279-323 | The request's start is stamped once, and only while running; the new state and outcome are those of that transition. |
| Lifecycle.LifecycleCollector.FrontendStarted | experiments/agent_cli/lifecycle_collector.py:325-345 | The same for the frontend's start. |
| Lifecycle.LifecycleCollector.RoundStarted | experiments/agent_cli/lifecycle_collector.py:347-393 | The method's new state and outcome are those of the round-start transition. |
| Lifecycle.LifecycleCollector.FirstToken | experiments/agent_cli/lifecycle_collector.py:395-418 | The same for the first token. |
| Lifecycle.LifecycleCollector.RoundEnded | experiments/agent_cli/lifecycle_collector.py:420-465 | The same for the round end, with its partial write on a blank status. |
| Lifecycle.LifecycleCollector.AttemptStarted | experiments/agent_cli/lifecycle_collector.py:467-508 | The same for the attempt start. |
| Lifecycle.LifecycleCollector.AttemptEnded | experiments/agent_cli/lifecycle_collector.py:510-552 | The same for the attempt end, which stays open after the terminal event. |
| Lifecycle.LifecycleCollector.ToolQueued | experiments/agent_cli/lifecycle_collector.py:586-622 | The same for queueing a tool. |
| Lifecycle.LifecycleCollector.ToolStarted | experiments/agent_cli/lifecycle_collector.py:624-694 | The method's new state and outcome are those of the tool-start transition, partial writes on failure included. |
| Lifecycle.LifecycleCollector.ToolEnded | experiments/agent_cli/lifecycle_collector.py:696-798 | The method's new state and outcome are those of the tool-end transition. |
| Lifecycle.LifecycleCollector.FrontendTerminal | experiments/agent_cli/lifecycle_collector.py:800-857 | The loop over tools and the freeze give the terminal transition. |
| Lifecycle.ActiveStaysExactUnlessMidway | experiments/agent_cli/lifecycle_collector.py:624-798 | Active tools stay exactly those started and not ended, unless the call is the end of an active tool or the start of a queued one and fails after starting to write; then they do not. |
| Lifecycle.MidwayFailureExample | experiments/agent_cli/lifecycle_collector.py:624-798 | Two runs from the empty collector that end inexact: an active tool ended with a blank status, a queued one started with bad metadata. |
| Lifecycle.ActiveIsAlwaysExact | experiments/agent_cli/lifecycle_collector.py:586-798 | Over every run of well-formed calls the active set is exact. |
| Lifecycle.TerminalFreezes | experiments/agent_cli/lifecycle_collector.py:510-857 | After terminal, any further calls leave rounds, tools, terminal and latency data unchanged. |
| Lifecycle.CompletedMeansToolsEnded | experiments/agent_cli/lifecycle_collector.py:800-857 | Once completed, all tools have ended, forever. |
| Lifecycle.RunKeepsWell | experiments/agent_cli/lifecycle_collector.py:347-798 | Over every run the order lists enumerate the records and every reference points to a record. |
| Lifecycle.SnapshotPlacesEverythingOnce | experiments/agent_cli/lifecycle_collector.py:953-1050 | The trace projection puts each tool in exactly one round or the orphan list and each attempt in exactly one round. |
| LifecycleTrace.TraceShowsRecords | experiments/agent_cli/lifecycle_collector.py:957-1023 | Over every run, on the records alone: row k is round k; a tool is in the row of its parent, and an orphan if and only if it has no known parent; an attempt is in the row of its round; lists keep insertion order. |
| LifecycleTrace.QueuedToolIsShownInItsRound | experiments/agent_cli/lifecycle_collector.py:957-1023 | A concrete run: a tool queued for a round is shown there. |
| LifecycleRecords.AcceptedCallsAreRecorded | experiments/agent_cli/lifecycle_collector.py:330-857 | Whatever comes after: a call that returned normally has left its own data in its record for good. |
| LifecycleRecords.RecordsComeFromCalls | experiments/agent_cli/lifecycle_collector.py:347-798 | Over every run: every record, time, status and parent comes from a call of the run that named it. |
| LifecycleRecords.TimesAreInOrder | experiments/agent_cli/lifecycle_collector.py:347-857 | With a clock that never runs back: first token and end follow the start, attempts start after their round, tools are queued, started and ended in order, and only attempts end after the terminal event. |
| Lifecycle.QueueToolWorks | experiments/agent_cli/lifecycle_collector.py:586-622 | A queue call touches one tool only and, for a new one, succeeds with a tool neither started nor ended. |
| Lifecycle.StartToolWorks | experiments/agent_cli/lifecycle_collector.py:624-694 | A start call touches one tool only and succeeds whenever the tool has neither started nor ended. |
| Lifecycle.EndToolWorks | experiments/agent_cli/lifecycle_collector.py:696-798 | An end call touches one tool only and succeeds whenever the tool has not ended. |
| Bridge.RoundNameIsInjective | experiments/agent_cli/native_request_worker.py:296-298 | Round ids determine turn and number, also past 9999. |
| Bridge.EnsureRoundLinks | experiments/agent_cli/native_request_worker.py:285-310 | Opening a round never raises and keeps bridge and collector rounds in step. |
| Bridge.RecordLinks | experiments/agent_cli/native_request_worker.py:312-366 | What recording a row may change in every case; an unrecorded row is one whose attempt has not been seen to start. |
| Bridge.DrainPending | experiments/agent_cli/native_request_worker.py:368-387 | The retry loop computes the drain. |
| Bridge.SweepOnce | experiments/agent_cli/native_request_worker.py:374-386 | One sweep over the buffered rows. |
| Bridge.DrainLinks | experiments/agent_cli/native_request_worker.py:368-387 | The drain terminates, keeps the refinement and leaves only first-token and end rows whose start is unseen. |
| Bridge.BackendEventKeepsInv | experiments/agent_cli/native_request_worker.py:389-410 | Every proxy event keeps the bridge invariant and touches no tool. |
| Bridge.NativeEventKeepsInv | experiments/agent_cli/native_request_worker.py:444-646 | Every well-formed native event keeps the bridge invariant. |
| Bridge.ClosureEndsEveryRound | experiments/agent_cli/native_request_worker.py:412-434 | An abnormal closure ends every open round and empties the buffer. |
| BridgeTools.ClosureNamesItsStatus | experiments/agent_cli/native_request_worker.py:412-434 | It ends exactly the rounds that were open, now and with the status given. |
| BridgeTurns.ActiveTurnIsRight | experiments/agent_cli/native_request_worker.py:466-470 | Over every run: a turn is active for the bridge if and only if it was started and since then neither completed, nor replaced, nor closed. |
| BridgeTurns.AttemptsBelongToTheirTurn | experiments/agent_cli/native_request_worker.py:312-334 | Over every run: each attempt is bound to the round then open for the turn that was active, by the events, when its start was recorded. |
| BridgeTurns.EarlyStartGoesToNextTurn | experiments/agent_cli/native_request_worker.py:389-410 | A start fed while no turn is active waits in the buffer and goes to the next turn's round. |
| BridgeTurns.EarlyStartExample | experiments/agent_cli/native_request_worker.py:389-410 | A concrete run: the next turn's start is not bound to the completed turn. |
| BridgeTools.ResponseEndsItsRound | experiments/agent_cli/native_request_worker.py:547-571 | A response's end closes its turn's round, opened first if need be, and remembers it as the last. |
| BridgeTools.ToolStaysWithItsCall | experiments/agent_cli/native_request_worker.py:502-646 | Over every run: a called tool belongs to the round open for its turn at the call, whenever its start, output and end are reported. |
| BridgeTools.ReportLinksTool | experiments/agent_cli/native_request_worker.py:478-501 | A start, output or end that does not raise takes a tool over to the round of its call, whatever round it had before. |
| BridgeTools.UncalledToolBelongsToItsTurn | experiments/agent_cli/native_request_worker.py:588-620 | A tool first seen running or done, which no call has named, belongs to the open round of its turn, or else its last one, or none. |
| Bridge.NativeEventFollows | experiments/agent_cli/native_request_worker.py:444-646 | Over any native event, a tool falls out of step exactly if the event starts it again after its end, and it never falls back into step. |
| Bridge.ToolsStayRefinedUnlessRestarted | experiments/agent_cli/native_request_worker.py:573-646 | Tool phases mirror the collector after an event if and only if it does not restart a finished tool. |
| Bridge.ToolIsMirroredUnlessRestarted | experiments/agent_cli/native_request_worker.py:444-646 | Over every run, a tool is mirrored at the end if and only if no event of the run started it again after its end. |
| Bridge.ToolEventRaisesExactlyWhenBroken | experiments/agent_cli/native_request_worker.py:444-646 | Apart from a turn's start, a native event raises if and only if it reports the end of a tool that was started again after its end. |
| Bridge.RestartedToolExample | experiments/agent_cli/native_request_worker.py:607-646 | A concrete run that restarts a finished tool, after which the report of its end raises. |
| BridgeEnds.BackendEventRaisesExactlyWhen | experiments/agent_cli/native_request_worker.py:312-410 | A proxy event raises if and only if it ends an attempt that has ended, or binds, in an active turn, an attempt with two buffered ends. |
| BridgeEnds.SweepsRaiseExactlyWhen | experiments/agent_cli/native_request_worker.py:368-387 | The retry loop raises if and only if some attempt, bound or started among the rows, has two ends among those recorded and waiting. |
| BridgeEnds.TurnStartRaisesExactlyWhen | experiments/agent_cli/native_request_worker.py:368-387 | A turn's start raises if and only if the same holds of the buffered rows. |
| BridgeEnds.EventRaisesExactlyWhen | experiments/agent_cli/native_request_worker.py:285-646 | After every run, and for every well-formed next event: it raises if and only if it is one of the faulty ones named in the rows above; a closure never does. |
| BridgeEnds.PassKeepsEnds | experiments/agent_cli/native_request_worker.py:374-386 | A sweep that does not raise conserves, for every attempt, the ends recorded plus those waiting, and whether it is or will be bound. |
| BridgeEnds.UnboundEndIsBuffered | experiments/agent_cli/native_request_worker.py:349-351 | The end of an unbound attempt is buffered and has no other effect, in a turn or not. |
| BridgeEnds.SecondEndExample | experiments/agent_cli/native_request_worker.py:389-410 | Two concrete runs whose next row raises: an end after the start and the end, and the start after two ends. |
| BridgeEnds.EndRaisesExactlyWhenRepeated | experiments/agent_cli/native_request_worker.py:349-366 | The end of a bound attempt raises if and only if the attempt has ended before. |
| BridgeRuns.DistinctEndsNeverRaise | experiments/agent_cli/native_request_worker.py:389-410 | Over every run of well-formed events: if no attempt's end occurs twice among the proxy rows fed, no proxy event raises. |
| BridgeRuns.NoRowIsLost | experiments/agent_cli/native_request_worker.py:368-410 | When nothing raises, the buffered rows and the new one are, as a multiset, the rows recorded and the rows still buffered. |
| BridgeRuns.DrainSplits | experiments/agent_cli/native_request_worker.py:368-387 | The same for a drain on its own, as a new turn starts it. |
| BridgeRuns.TakenRowsHaveEffect | experiments/agent_cli/native_request_worker.py:312-366 | Every row counted as recorded has its effect in the end: its attempt is bound, its round has its first token (or has ended), or the attempt has ended with the row's status. |
| Bridge.BridgeRefinesCollector | experiments/agent_cli/native_request_worker.py:285-646 | Over every interleaving: active rounds are the collector's open rounds, the collector's rounds are exactly those named 1 to the count of each turn, each attempt is bound to its round of an announced turn, buffered rows are early, and exactly the tools never restarted are mirrored. |
| Namespace.AllocateAlias | experiments/agent_cli/backend_proxy.py:97-111 | The search loop terminates and returns the specified alias, marked occupied. |
| Namespace.SearchAdvances | experiments/agent_cli/backend_proxy.py:105-111 | The pigeonhole step: each taken candidate uses up one occupied name. |
| Namespace.AliasIsFirstFree | experiments/agent_cli/backend_proxy.py:104-111 | The alias is a numbered candidate and every earlier candidate is occupied. |
| Namespace.FlattenTools | experiments/agent_cli/backend_proxy.py:127-187 | The nested loops return the first error in order, or the placement of all entries. |
| Namespace.FlattenRequest | experiments/agent_cli/backend_proxy.py:114-232 | Tools, input items and tool choice are rewritten as specified, or the request is left as it was. |
| Namespace.RewriteInputs | experiments/agent_cli/backend_proxy.py:192-212 | The input loop computes the rewriting, with an alias allocated for each undeclared function. |
| Namespace.RefusedExactlyWhenMalformed | experiments/agent_cli/backend_proxy.py:140-166 | Flattening is refused if and only if some namespace tool is malformed, with the first one's error. |
| Namespace.FlattenedListIsFaithful | experiments/agent_cli/backend_proxy.py:127-190 | Every tool has its flat form, in order, other fields kept; aliases are fresh, pairwise distinct, disjoint from declared names, and lead back. |
| Namespace.ChoiceLeadsBack | experiments/agent_cli/backend_proxy.py:214-230 | A namespaced tool choice gets an alias that leads back to it. |
| Namespace.UnchangedExactlyWhenUntouched | experiments/agent_cli/backend_proxy.py:235-271 | A value is unchanged by naming back if and only if it holds no call under an alias, at any depth. |
| Namespace.CounterTellsChange | experiments/agent_cli/backend_proxy.py:235-271 | The returned counter is zero if and only if the response is unchanged. |
| Namespace.RestoringUndoesAliasing | experiments/agent_cli/backend_proxy.py:235-271 | For every JSON tree, naming back undoes aliasing at every depth if and only if no other call carries an alias. |
| Namespace.AliasCallIsNamed | experiments/agent_cli/backend_proxy.py:252-268 | A call under an alias gets exactly its namespace and name; other fields are visited in place. |
| Namespace.PlainCallUnderAliasIsClaimed | experiments/agent_cli/backend_proxy.py:252-266 | A plain call named like an alias is turned into a namespaced call. |
| Namespace.DeclaredCallsAreUntouched | experiments/agent_cli/backend_proxy.py:235-271 | A value whose calls all name declared top-level tools is unchanged. |
| Namespace.RequestRoundTrip | experiments/agent_cli/backend_proxy.py:114-271 | Naming back the flattened request's input gives the original input if and only if every item is plain. |
| NamespaceRequest.RequestIsRefusedExactlyWhen | experiments/agent_cli/backend_proxy.py:140-166 | On the raw tools: refused if and only if some namespace has no name, no list of tools, or a child that is no named function object. |
| NamespaceRequest.FlatRequestIsRight | experiments/agent_cli/backend_proxy.py:114-232 | The reference form: without a namespaced tool nothing changes; with one, every tool, input call and choice is under an alias that leads back, children are described by their namespace, and everything else is kept. |
| NamespaceRequest.AliasesAvoidTopTools | experiments/agent_cli/backend_proxy.py:127-136 | No alias is the name of a tool declared at the top. |
| NamespaceRequest.AliasIsFirstFreeName | experiments/agent_cli/backend_proxy.py:97-173 | A child's alias is the first of its numbered names that is neither a top tool's name nor an earlier child's alias. |
| NamespaceRequest.IsAliasCallExactlyWhen | experiments/agent_cli/backend_proxy.py:252-262 | Which response objects are named back: a name that is an alias, and a type that mentions a call. |
| History.ResponsesInputToChatMessages | experiments/openhands/qwen_responses_compat.py:265-348 | The loop with its pending calls computes the translation, first refusal included. |
| History.FlushAssistantCalls | experiments/openhands/qwen_responses_compat.py:195-214 | Pending calls go onto a preceding assistant message without calls, or into a message of their own. |
| History.RefusedExactlyWhen | experiments/openhands/qwen_responses_compat.py:283-346 | Refused if and only if some item cannot be read, at the first such item. |
| History.EncodingReadsBack | experiments/openhands/qwen_responses_compat.py:265-348 | Decoding the messages gives exactly the item sequence: nothing dropped, added or reordered. |
| History.EncodingIsWellGrouped | experiments/openhands/qwen_responses_compat.py:195-214 | No bare-calls message follows an assistant message, and no assistant message is empty. |
| History.DecodingReadsBack | experiments/openhands/qwen_responses_compat.py:195-348 | On well-grouped messages encoding inverts decoding, so the two match one to one. |
| History.RunsBecomeGroups | experiments/openhands/qwen_responses_compat.py:195-214 | The assistant messages' call lists are exactly the maximal runs of calls, in order. |
| History.TranslationReadsBack | experiments/openhands/qwen_responses_compat.py:265-348 | For a whole request, the messages read back as the instructions followed by every item. |
| HistoryReading.ItemIsReadExactlyWhen | experiments/openhands/qwen_responses_compat.py:283-346 | A raw item is accepted if and only if its fields allow it, and what each accepted one becomes. |
| HistoryReading.JoiningPutsLineBreaks | experiments/openhands/qwen_responses_compat.py:169-192 | Text parts are joined by line breaks, wherever the list is cut. |
| HistoryReading.RequestIsReadExactly | experiments/openhands/qwen_responses_compat.py:265-348 | A request is refused exactly for a previous response or at its first unacceptable item; otherwise its messages decode to the instructions and what each raw item becomes. |
| ResponsesStream.TranslateStream | experiments/openhands/qwen_responses_compat.py:525-744 | The nested loops and the closing code emit exactly the specified events. |
| ResponsesStream.ConsumeChoice | experiments/openhands/qwen_responses_compat.py:562-643 | One choice: finish reason, text, then tool calls, stopping at a failure. |
| ResponsesStream.CloseStream | experiments/openhands/qwen_responses_compat.py:644-744 | The closing code emits the done events of every item and the one terminal event. |
| ResponsesStream.StreamIsNumberedAndEndsOnce | experiments/openhands/qwen_responses_compat.py:525-744 | Sequence numbers are 0..n-1; exactly one terminal event occurs and it is last. |
| ResponsesStream.EveryItemTellsItsTale | experiments/openhands/qwen_responses_compat.py:580-744 | Each item is added once, then its deltas, then its done events; the deltas add up to its content; a failed stream reports nothing done. |
| ResponsesStream.DoneEventsRepeatTheDeltas | experiments/openhands/qwen_responses_compat.py:672-718 | Every done event carries exactly the concatenation of the deltas before it. |
| StreamChannels.RunReadsChannels | experiments/openhands/qwen_responses_compat.py:554-650 | The run fails if and only if a read fails or finish reasons conflict; otherwise it holds each channel's concatenation. |
| StreamChannels.SameChannelsSameEnding | experiments/openhands/qwen_responses_compat.py:644-744 | Streams with equal channels end with the same terminal event and output. |
| StreamChannels.RecuttingKeepsReply | experiments/openhands/qwen_responses_compat.py:554-744 | Replacing any stretch by one with the same channels leaves the reply unchanged. |
| StreamChannels.CuttingText | experiments/openhands/qwen_responses_compat.py:580-603 | Cutting a text delta in two keeps the channels. |
| StreamChannels.CuttingTool | experiments/openhands/qwen_responses_compat.py:604-643 | Cutting a tool delta in two keeps the channels. |
| StreamChannels.SwappingKeepsChannels | experiments/openhands/qwen_responses_compat.py:580-643 | Text and tool deltas, and deltas of different tools, may trade places. |
| StreamEndings.EndsAsTheAtomsSay | experiments/openhands/qwen_responses_compat.py:644-744 | For every stream: failed exactly on trouble while reading or a missing, unknown or contradicted finish reason; incomplete exactly when cut off, with its reason; usage and output as the chunks say. |
| StreamPositions.PositionsAgreeExactlyWhen | experiments/openhands/qwen_responses_compat.py:580-709 | For every finished stream: positions agree if and only if each atom that speaks about a call comes before the text when the call's final place is its index, and after it when the place is one more. |
| StreamPositions.DenseOrPunctualPositions | experiments/openhands/qwen_responses_compat.py:580-709 | With indices 0..n-1 positions agree if and only if text is punctual; with punctual text, if and only if the indices are 0..n-1. |
| StreamPositions.RunIsVoiced | experiments/openhands/qwen_responses_compat.py:610-643 | Every running event about a call comes from an atom that speaks, at that atom's index, plus one after the text has started. |
| StreamPositions.EverySpeakerIsHeard | experiments/openhands/qwen_responses_compat.py:610-643 | Every atom that speaks about a call has such an event. |
| StreamPositions.DonePositionsIndexOutput | experiments/openhands/qwen_responses_compat.py:675-718 | Every done event is at the index of its own item in the final output, so no two items share a done position. |
| StreamPositions.LateTextSharesPosition | experiments/openhands/qwen_responses_compat.py:580-643 | A call of index 0 that speaks before late text is placed at 0, where the message is added too. |
| StreamPositions.LateTextAndGapCanAgree | experiments/openhands/qwen_responses_compat.py:580-709 | A concrete finished stream with late text and a gapped index whose positions agree. |
| StreamPositions.LateTextExample | experiments/openhands/qwen_responses_compat.py:580-709 | A concrete finished stream whose call is added at position 0 and done at position 1. |
| ShellSpans.OpenCodeShellSpans | experiments/agent_cli/event_normalizer.py:131-212 | The pairing and checking loops return the specified spans and issues. |
| ShellSpans.NoIssueExactlyWhenClean | experiments/agent_cli/event_normalizer.py:140-188 | Pairing raises no issue if and only if every shell row has an id and none starts or ends twice. |
| ShellSpans.NoSpanIssueExactlyWhen | experiments/agent_cli/event_normalizer.py:140-212 | There is no issue at all if and only if, besides, every id seen has a complete span. |
| ShellSpans.PairedSpansAreDistinct | experiments/agent_cli/event_normalizer.py:190-212 | The spans returned are complete and pairwise distinct. |
| ShellRows.SpansSayWhatRowsSay | experiments/agent_cli/event_normalizer.py:140-188 | Every span has the times, texts and first row of the first start row and the first end row of its id; the later row's text counts, an end row's only if it has one. |
| ShellRows.UsableSpansAreReturned | experiments/agent_cli/event_normalizer.py:190-212 | A span is returned if and only if the first start row and the first end row of its id are there and timed and both hashes have 64 characters; any other id seen is reported incomplete. |
| ShellRows.SpansAreQueuedByTime | experiments/agent_cli/event_normalizer.py:307-318 | Spans come into the matching queues by the time of their start row, equal times in row order. |
| ShellSpans.SortingSorts | experiments/agent_cli/event_normalizer.py:312-315 | Spans are ordered by start time and row, as a permutation. |
| ShellSpans.MatchNatives | experiments/agent_cli/event_normalizer.py:310-369 | The queue loops compute the matching and its count. |
| ShellSpans.MatchingIsFirstComeFirstServed | experiments/agent_cli/event_normalizer.py:321-332 | The i-th native call of a key gets the key's i-th span by start time, or nothing when there are fewer. |
| ShellSpans.NoSpanIsGivenTwice | experiments/agent_cli/event_normalizer.py:321-375 | Two native calls never get the same span. |
| ShellSpans.MatchedCountIsTotalOfMinima | experiments/agent_cli/event_normalizer.py:321-375 | The matched count is the sum over keys of min(native count, span count). |
| ShellSpans.PassesExactlyWhenOneToOne | experiments/agent_cli/event_normalizer.py:371-401 | Integrity passes if and only if there is no issue, every native call has a key, and counts agree for every key. |
| LiveTools.Normalizer.FeedRow | experiments/agent_cli/event_normalizer.py:616-688 | The method's state change and events are those of the row transition. |
| LiveTools.Normalizer.FinishStream | experiments/agent_cli/event_normalizer.py:690-696 | The loop ends every open tool, in start order. |
| LiveTools.EveryToolIsBracketedOnce | experiments/agent_cli/event_normalizer.py:584-696 | Any row stream followed by finish yields, per tool id, exactly one start then one end, for exactly the ids it starts. |
| LiveRows.ToolsAreStartedExactlyWhenShown | experiments/agent_cli/event_normalizer.py:616-688 | A tool is started if and only if some row shows it, and ended before the finish if and only if some row closes it. |
| LiveTools.LiveToolStats.Register | experiments/openhands/run_task_workload.py:558-561 | Registration keeps open tools and the counter. |
| LiveTools.LiveToolStats.Unregister | experiments/openhands/run_task_workload.py:563-568 | The request's open tools leave the counter; the clamp at zero never acts. |
| LiveTools.LiveToolStats.ApplyEvent | experiments/openhands/run_task_workload.py:594-617 | The counter stays the number of distinct open tools; the clamp at zero never acts. |
| LiveTools.AllPairsGone | experiments/openhands/run_task_workload.py:563-568 | Dropping a request removes exactly its own open tools from the total. |
| LiveTools.SmoothedStaysInRange | experiments/openhands/run_task_workload.py:603-612 | The smoothed wait never leaves the range of the waits seen. |
| LiveTools.FirstWaitIsTaken | experiments/openhands/run_task_workload.py:604-605 | The first wait is taken as it is. |
| LiveTools.SteadyWaitIsApproached | experiments/openhands/run_task_workload.py:603-610 | Equal waits bring the smoothed wait ever closer: each leaves (1 - alpha) of its gap to them. |
| LiveTools.StatisticsFollowNormaliser | experiments/agent_cli/event_normalizer.py:584-696 | Fed the normaliser's events, the statistics hold exactly its open tools, and none after finish. |

## Left out

- Bridge.BridgeRefinesCollector: the bridge holds the collector's state by value, so sharing of the collector with other writers is not modelled.
- CodexRpc.LateReplyIsHarmless: assumes one reply per sent request; what several replies do is the row of CodexRpc.ReplyIsFatalExactlyWhen.
- Bridge.NativeEventKeepsInv: the collector strips surrounding whitespace from ids and the model keys by the raw id, so turn, round, tool and attempt ids are assumed to carry none.
- BridgeRuns.NoRowIsLost: a row without an attempt id is ignored by the code, so it is neither recorded nor buffered.
- CodexRpc.StepKeepsInv: the reader's own fatal-error call is one more setter, free to run at any time.
- Lifecycle.ActiveIsAlwaysExact: excludes calls whose metadata cannot be encoded and blank end statuses; the exact condition is its own row.
- Lifecycle.TerminalFreezes: the JSONL writers, metric sums and duration arithmetic are not modelled; clocks are non-decreasing.
- Namespace.FlattenTools: JSON trees are values, so update in place, aliasing between subtrees and key order are not captured; a child description that is not a string counts as empty.
- Namespace.RestoringUndoesAliasing: a non-string `type` is not a call kind, and the recursive visitor is a function.
- History.EncodingReadsBack: content parts are joined and developer becomes system before encoding; sanitising an argument string is an arbitrary function of it; `output` values arrive as text.
- ResponsesStream.TranslateStream: random ids are named by the tool index they are drawn for; SSE framing, usage conversion and the static response fields are not modelled.
- LiveTools.Normalizer.FeedRow: timestamps, durations, tool names and statuses are not modelled.
- LiveTools.LiveToolStats.ApplyEvent: file offsets and polling of the event files are not modelled.
- ShellSpans.OpenCodeShellSpans: exit codes, status text and durations are copied fields and are not modelled.
- Mars.ProcessSubmissions: event logging is not modelled; the request id is the emission index, and a running job holds both its future and its block entry.
- Concur.CollectCompleted: results and exceptions of finished requests are opaque; gate files are a set of ids.
- The turn driver of the app-server (turn waiting, limits, interruption) is not modelled.
- The OpenCode bridge and server, the trace proxy and the request workers are transport or repeat the modelled cores.
- Graph building, policy tables, path checks, subprocess and container handling, configuration and provenance carry no property of this kind.
- The prefill tokenizer and the serving engine are foreign code; estimates are arbitrary positive integers.

# gpu-arbiter, modelled and proved

gpu-arbiter hands one GPU back and forth between games and managed services. It
is a level-triggered controller: each reconcile pass scans the processes for
games, debounces the end of a game, ranks the services on a priority ladder,
stops whatever must give the GPU up, starts whatever may have it, and keeps a
few in-memory ledgers (held by the operator, owing a resume, backed off). This
project models that controller and proves what it promises, over every run and
against every behaviour of the outside world.

Run `dafny verify dfyconfig.toml` to verify the whole project.

## How the model is built

**The world is an adversary.** `World.dfy` defines a `Log` of everything the
daemon did and saw, and a `World` whose answers (process scans, run-state probes
that may fail, busy probes, exit codes of every command, GPU readings, how long
each step takes) are functions of the whole log. Proving something for all worlds
proves it for every environment, including one that plans against the daemon.
The only thing a world cannot do is run the clock backwards or cut a sleep short.

**Two descriptions of the pass, proved equal.** `ArbiterState` (ArbiterState.dfy) and
`Metrics` are classes whose methods update fields, maps and sets in loops, as the
Rust code does. `Reconcile.dfy` and `Units.dfy` describe the same steps as
functions from (ledgers, log) to (ledgers, log). Every method's `ensures` is its
function, so `ReconcileWith` computes `Reconcile.Pass`. The theorems are about
the functions, and through `IsRun` about every sequence of passes from
`with_config`, failed passes included.

**History predicates are independent of the ledgers.** What the daemon ought to
remember is read off the log alone (`HeldBy`, `OwedBy`, `Attempts`, `OutcomesIn`,
`TopScans`, ...), and the ledgers are then proved to agree. In the same way `IsDue`,
`Said`, `WarrantFor` and `RightVerdict` say, from the log alone, which step of an
eviction comes next, what the world answered, whom the daemon may touch and which
reply a manual start gets; none of them mentions the functions that compute it. The log
entry that closes an eviction also carries the clock when the eviction began, which
the code keeps only until it has the total; `RunIsFaithful` ties the two together.

## The files

| file | what it holds |
|---|---|
| World.dfy | configuration, triggers, the log, the world |
| Claims.dfy, Debounce.dfy, Ladder.dfy, Gpu.dfy | the pure parts of a pass and what each means |
| Metrics.dfy | counters and histograms, in place and as values |
| Units.dfy, Eviction.dfy | one unit: probing, stopping, the eviction loop and its guarantees |
| Protocol.dfy | the eviction as a protocol on the log: which step is due when, and that every answer is the world's |
| Reconcile.dfy, ArbiterState.dfy | the pass as a function; the class that runs it |
| Shape.dfy, Deeds.dfy | which events each stage can add to the log; what every deed keeps, every run keeps |
| History.dfy | safety over runs: ledgers, never starting into a game, lawful stops |
| Boundary.dfy | what holds between passes; `gaming` as a rule about scans |
| Ranking.dfy, Warrants.dfy, Choosing.dfy | who outranks whom, off the log; whom the daemon may stop, start, resume and ask; whom it goes on to stop |
| Exclusion.dfy, Degraded.dfy | what a pass that ends in `gaming` has done about every unit; when the handover counts as degraded |
| Restoring.dfy, Failing.dfy | what a pass that ends `available` has done about every unit; when a pass reports an error |
| Backoff.dfy | the times the backoff records and the waits it counts from them |
| Spacing.dfy, Outlasting.dfy | when the stops themselves begin; a run in which they are not kept apart |
| Accounting.dfy | counters and histograms as sums over the log |
| Manual.dfy, Gate.dfy | replies to manual requests; a start survives its own pass |
| Settling.dfy, Playing.dfy | self-stabilisation in a steady world: without a game, with one, and after one |
| Triggers.dfy, Daemon.dfy | the waiting and debouncing loop; the whole daemon |
| Calendar.dfy, Rfc3339.dfy | seconds to dates, dates to text, and back |
| Labels.dfy | label escaping, sample lines, pages of samples |

## Assumptions

- Unit names are distinct (`DistinctNames`) wherever a ledger has to stand for one
  unit: the ledgers are keyed by name, and the configuration reader does not check
  names (`src/config.rs:661`). Theorems that do not need it do not assume it.
- Times are whole milliseconds, durations in histograms are reals.
- `Settling` and `Playing` alone restrict the world: commands that work, probes
  that tell the truth, a fixed busy answer per running unit, and no game at all or
  one throughout.

## Where the code and its documentation differ

- `Supervisor::resolve` (`src/units.rs:122-130`) says a missing verb is an empty
  command line that is treated as a no-op. `run_argv` (`src/units.rs:661-670`)
  returns an error for it. `VerbsNeedPrograms` says exactly when a stop, a start
  or a kill therefore fails in every world. The consequence that matters is the
  missing probe: `evict_inner` returns on its first failed probe
  (`src/units.rs:1153`), so a command-driven unit without `is_active_cmd` is never
  sent a stop or a kill, although the gaming invariant means an unsure unit to be
  stopped (`src/reconcile.rs:680-681`). `NeverEvictedIff` proves that this is
  exactly the case in which every eviction fails so, and `StopOnlyIsNeverStopped`
  names a unit.
- The gaming invariant leaves a unit alone until its backoff expires
  (`src/reconcile.rs:681-686`). The backoff is counted from the moment a batch was
  decided on (`src/reconcile.rs:688`, `723`), not from the stop. The recorded times
  are kept apart by the wait (`RunIsPaced`); the stops begin the wait after the
  previous recorded time (`RunIsOnTime`), and at most 4 + T/120 of them begin in
  any T seconds (`StopsAreRare`). They are not kept apart by the wait:
  `StopsAreNotSpaced` is a run in which a unit is stopped again the moment its last
  stop ended, and `FullWaitIff` says exactly when that can happen.
- The timestamp code is documented as exact for the whole calendar, and
  `CivilFromDaysIsTheCalendar` proves it. The text is twenty characters and sorts
  by time only up to the end of the year 9999; `TwentyCharactersIff` and
  `OrderedIff` prove that this is exactly where it stops.

## Model

| member | source | states |
|---|---|---|
| Claims.ClaimSet | src/reconcile.rs:75-85 | the loop over processes collects what `ClaimsOf` describes |
| Claims.ClaimsAreCanonical | src/reconcile.rs:75-85 | a claim is listed iff some process raises it; the list is strictly sorted; scans that raise the same claims give the same list whatever the order and repeats |
| Debounce.DebounceRule | src/reconcile.rs:1210-1228 | folded over any time-ordered scan history, the debounce says `gaming` iff a game was seen and either nothing has been seen since or the first empty scan after it is younger than the grace; failed scans count for nothing |
| Debounce.Account | src/reconcile.rs:1210-1228 | the exit window left open is the time of the first empty scan after the last game, and it is open only inside the grace |
| Ladder.TopPriority | src/reconcile.rs:1305-1305 | the highest priority among the busy units, none iff nobody is busy |
| Ladder.PreemptedUnits | src/reconcile.rs:1328-1336 | exactly the configured units strictly below the demand |
| Ladder.ResumeTargets | src/reconcile.rs:1263-1285 | exactly the units neither held nor named among the preempted, and only when the GPU is free |
| Ladder.EnsureRunningTargets | src/reconcile.rs:1242-1252 | exactly the eager ones of those |
| Ladder.FindUnit | src/units.rs:977-986 | the first unit configured under that name, none iff the name is not configured |
| Ladder.PreemptedIffOutranked | src/reconcile.rs:1303-1336 | a unit must give up the GPU iff a game or a busy unit strictly outranks it: never for itself, a peer, or an idle machine |
| Ladder.GateAgreesWithLadder | src/reconcile.rs:1088-1100 | on the same busy answers, the manual-start gate refuses a unit iff the pass would preempt it |
| Ladder.RefusalNamesTheStrongest | src/reconcile.rs:1094-1099 | a refusal names a busy unit that outranks the target and that no busy unit outranks |
| Gpu.AttributionMeans | src/gpu.rs:555-566 | nothing is attributed iff the query failed or the unit has no channel; an explicit zero says every process that counts holds nothing |
| Gpu.AttributionIsTheSum | src/gpu.rs:487-496 | what is attributed is the memory of exactly the processes that count towards the unit, by control group or by name match |
| Gpu.SumIsTheMeasure | src/gpu.rs:528-534 | the sum takes a process that counts for its memory, any other for nothing, and two lists for both |
| Gpu.UnitsShareTheMemory | src/gpu.rs:528-534 | the sums of distinct units add up to exactly the memory of the processes any of them owns |
| Units.BusyMeansExitZero | src/units.rs:790-854 | a unit is busy iff its configured probe ran and exited zero; every failure reads as idle |
| Units.WaitUntilStopped | src/units.rs:1277-1288 | the settle loop ends, and is `Settle` |
| Units.EscalateUnit | src/units.rs:1225-1260 | the timed-out branch is `Escalate` |
| Units.PollUntilStopped | src/units.rs:1194-1266 | the poll loop with its `seen_nonzero` flag ends, and is `Polls` |
| Units.EvictUnit | src/units.rs:1134-1267 | the whole eviction, with its stop timing, is `EvictInner` |
| Eviction.SettleFacts | src/units.rs:1272-1288 | success only on a probe that said stopped; failure only after the full budget with the last probe saying otherwise; at most one wait per 250 ms of budget |
| Eviction.EscalateFacts | src/units.rs:1225-1260 | a kill is sent unless a probe confirms the unit stopped; success ends on such a probe; at most eight waits |
| Eviction.PollDecides | src/units.rs:1194-1224 | a poll frees iff memory is low or cannot be read at all and a probe says stopped, and that wins over the timeout; otherwise it escalates iff the deadline has passed, so a live unit with little memory cannot poll for ever |
| Eviction.PollFacts | src/units.rs:1194-1224 | one poll attributes memory to the unit iff the raw answer is positive, or zero with a positive one earlier in this eviction; it ends the loop as freed only on a confirmed stop |
| Eviction.PollsFacts | src/units.rs:1194-1266 | the poll loop's verdict tells the truth, and polls and waits are bounded by the time left, even if memory reads free forever |
| Eviction.FailedStopFacts | src/units.rs:1169-1183 | a failed stop is followed by a kill iff the unit is not confirmed stopped |
| Eviction.EvictInnerFacts | src/units.rs:1134-1267 | every result says what the last probe and the commands sent say; at most one kill, only after a stop and never on a confirmed stop; at most 4T+1 polls and 4T+8 waits for a timeout of T seconds; no stop time iff nothing was stopped |
| Eviction.OkMeansNotRunning | src/units.rs:1204-1215 | every `Ok` ends on a probe that answered "not running" |
| Eviction.UnprobedIsUntouched | src/units.rs:1152-1155 | an eviction of a command-driven unit with no program to probe with is one failed probe, in any world: no stop, no kill |
| Eviction.NeverEvictedIff | src/units.rs:1152-1155 | every eviction of a unit fails that way, in every world, iff it is command-driven and has no program to probe with |
| Eviction.VerbsNeedPrograms | src/units.rs:655-670 | a stop, a start or a kill fails in every world iff the unit is command-driven and that verb has no program; a left-out kill is a second stop |
| Eviction.StopOnlyIsNeverStopped | src/units.rs:131-148 | a unit with a working stop command and nothing else is never sent it by an eviction |
| Eviction.BlindUnitsNeverAttributed | src/units.rs:1341-1387 | on AMD, on Windows, or for a command-driven unit without `vram_match`, no poll is ever read as the unit's own memory |
| Protocol.OneStepIsDue | src/units.rs:1134-1317 | once a unit has been told to stop, the log settles the next step of its eviction, and the verdict and times it ends with |
| Protocol.EvictIsProper | src/units.rs:1109-1317 | an eviction takes only steps that are due: it polls until freed or timed out, waits while neither, kills only on a failed stop or past the deadline, and reports the result and the stop and total times the log calls for; a stop that failed is always reported as failed |
| Protocol.RunIsProper | src/units.rs:1109-1417 | over every run, every step of every eviction was due, and every answer acted on is the world's: a poll reads nothing iff on Windows, the unit's own memory iff it is believed, else the device's; the own memory is known iff there is a channel and the query succeeds |
| Protocol.NoEarlyKill | src/units.rs:1216-1264 | over every run, a kill that follows a stop that worked comes no earlier than the eviction timeout after it |
| Protocol.FreedMeansFree | src/units.rs:1194-1216 | over every run off Windows, a unit that counts as freed before its deadline does so on a reading, its own or the device's, below the threshold |
| Deeds.RunKeeps | src/reconcile.rs:347-906 | a property of the log that no single deed to a configured unit breaks holds throughout every run |
| Metrics.Observe | src/state.rs:457-468 | the loop over the bounds adds one to exactly the buckets at or above the sample |
| Metrics.HistogramCounts | src/state.rs:437-468 | fed any samples, each bucket counts those at or below its bound, `count` all of them, `sum` their sum |
| Metrics.BucketsAreCumulative | src/state.rs:442-453 | buckets never decrease towards the right and never exceed the count |
| Metrics.Metrics.SeedUnit | src/state.rs:490-497 | every series of the unit exists afterwards, and no existing count changes |
| Metrics.Metrics.RecordEviction | src/state.rs:503-511 | one more of that outcome for that unit, nothing else |
| Metrics.Metrics.RecordEvictionDuration | src/state.rs:514-519 | one more observation in that unit's stage series, nothing else |
| Metrics.Metrics.RecordUnitRestart | src/state.rs:522-524 | one more restart of that unit, nothing else |
| Metrics.Metrics.RecordReconcilePass | src/state.rs:527-534 | one more pass of that trigger, nothing else |
| ArbiterState.ArbiterState.WithConfig | src/state.rs:646-653 | boots `available`, nothing held, every unit owing its startup resume and seeded at zero |
| ArbiterState.ArbiterState.SetState | src/state.rs:671-676 | publishes only an actual change |
| ArbiterState.ArbiterState.EvictOne | src/reconcile.rs:1117-1197 | evicts, owes a resume whatever the outcome, books outcome and durations |
| ArbiterState.ArbiterState.EvictUnits | src/reconcile.rs:989-1004 | evicts the targets in order and reports each outcome |
| ArbiterState.ArbiterState.NoteInvariantBackoff | src/reconcile.rs:1026-1056 | folds a batch of outcomes into the backoff map |
| ArbiterState.ArbiterState.DebounceExit | src/reconcile.rs:1210-1228 | the in-place debounce is `DebounceGameExit` |
| ArbiterState.ArbiterState.ProbeBusy | src/reconcile.rs:1063-1083 | which units were asked, who is busy and every run state seen |
| ArbiterState.ArbiterState.StartUnitByHand | src/reconcile.rs:955-977 | starts unless running; a failed start of a unit found running counts as already running |
| ArbiterState.ArbiterState.ManualStart | src/reconcile.rs:378-471 | the gate, the re-scan, the start and the reply |
| ArbiterState.ArbiterState.ManualStop | src/reconcile.rs:472-510 | holds and owes first, then evicts and replies |
| ArbiterState.ArbiterState.EnterGaming | src/reconcile.rs:594-634 | announces, tears down, notes the backoff, hands over regardless |
| ArbiterState.ArbiterState.DefendGaming | src/reconcile.rs:687-728 | stops again what came back, outside its backoff |
| ArbiterState.ArbiterState.Transition | src/reconcile.rs:593-730 | the three arms of the state change |
| ArbiterState.ArbiterState.PreemptTenants | src/reconcile.rs:769-797 | evicts the preempted units that are not confirmed stopped |
| ArbiterState.ArbiterState.EnsureRunning | src/reconcile.rs:799-902 | eager starts, then owed resumes, a scan before each |
| ArbiterState.ArbiterState.ReconcileWith | src/reconcile.rs:347-906 | the pass over the mutable state is `Reconcile.Pass`: same ledgers, same log, same error |
| History.RunIsFaithful | src/reconcile.rs:347-906 | over every run: held iff the last manual stop is newer than the last accepted manual start; a resume is owed iff none has succeeded since the last eviction, manual stop or startup; every start and resume happened while `available` was published, on a clean scan of its own, in a pass with no dirty or failed scan, and never for a held unit except by its manual start; every stop, kill, poll and verdict was justified when made |
| Ranking.GamePreemptsIff | src/reconcile.rs:574-583 | while a game holds the GPU, the exit grace included, a unit must give it up iff it is below the game or below a busy unit: peers of the game and units above it are left alone |
| Ranking.PlanRanks | src/reconcile.rs:574-583 | the units a pass settles on stopping are those the log shows to be below the game or below a unit found busy in that pass; without a game, only the latter |
| Ranking.PreemptedAreOutranked | src/reconcile.rs:574-583 | the units a pass preempts without a game are those the log shows to be outranked |
| Ranking.KnownAreNotProbed | src/reconcile.rs:687-702 | the gaming invariant and tenant preemption do not probe again a unit whose run state the pass knows |
| Warrants.RunHasWarrants | src/reconcile.rs:347-906 | over every run: a unit is stopped for a game only if it is below the game or below a busy unit, for a tenant only if a busy unit outranks it, by hand only in a pass asked to; started only if nobody busy outranks it, right after a clean scan, by hand or because it is eager, unheld and not seen running; resumed only if not outranked, not held, and started or just seen running; asked only if not held and not seen stopped; `available`, `evicting`, `gaming` are published in that order |
| Warrants.EveryoneIsAsked | src/reconcile.rs:1063-1083 | over every run, a pass that got past its top scan probed every unheld unit with a `busy_cmd` and asked each it did not find stopped, a failed probe included |
| Boundary.RunIsAtRest | src/reconcile.rs:521-730 | between any two passes: never `evicting`; `gaming` iff claims or an open exit window; an open window means no claims; `available` means no degraded flag, no backoff and no warnings |
| Boundary.ClaimsAreTheLastScan | src/reconcile.rs:514-556 | over every run, the claims shown are those of the newest top scan that did not fail |
| Boundary.GamingIffRecentGame | src/reconcile.rs:514-556 | over every run, the published state is the debounce rule applied to the top-of-pass scans alone |
| Exclusion.GameExclusion | src/reconcile.rs:576-728 | when a pass settles in `gaming`, each unit below the game's priority, or below a unit found busy in the pass, was confirmed stopped since the pass's top scan, or its eviction for the game failed since then and `degraded` is set, or its backoff had not expired at the moment the pass checked it |
| Choosing.HandoverReachesAll | src/reconcile.rs:594-634 | over every run, the pass that hands the GPU to a game has evicted every unit below the game or below a busy unit, running or not |
| Choosing.RunStopsTheUp | src/reconcile.rs:687-797 | over every run, a unit is stopped to defend a game, or for a tenant, only if the pass that stops it did not find it stopped |
| Degraded.DegradedIff | src/reconcile.rs:615-726 | over every run, `degraded` is set iff a stop made for the game now holding the GPU has failed since the handover began |
| Restoring.AvailableServesAll | src/reconcile.rs:769-896 | when a pass completes and ends `available`: each unit outranked by one found busy in that pass was confirmed stopped since the top scan or its eviction failed since then; each other unheld unit, unless a re-scan saw a game, was seen up or tried after the busy stage if it is eager, and still owes a resume only if the resume failed or the pass neither started the unit nor last saw it running |
| Failing.PassFailsIff | src/reconcile.rs:514-896 | over every run, a pass reports an error iff its newest event is a failed top scan, or a failed later scan with some eager unit, free to run and not found running, that nobody has tried to start; a failed scan ahead of a resume is no error |
| Backoff.RunIsPaced | src/reconcile.rs:1006-1056 | over every run, a unit's backoff entry is the one its session's recorded times call for, and recorded time k+1 is at least min(15 * 2^(k-1), 120) s after recorded time k; a clean stop or leaving `gaming` starts over |
| Backoff.WaitIsCapped | src/reconcile.rs:1017-1021 | 15, 30, 60, then 120 s for ever |
| Backoff.AttemptsAreRare | src/reconcile.rs:1026-1056 | at most 4 + T/120 recorded times of a unit fall in any T seconds of a session |
| Spacing.RunIsOnTime | src/reconcile.rs:615-723 | over every run, each eviction made for a game began at least the wait after its unit's last recorded time; each recorded time lies between its pass's top scan and the recording, after the stop for the one at the game's edge and before it for one that defends the game; stops and recorded times match one for one, and a stop is recorded only after the previous one ended |
| Spacing.StopsAreRare | src/reconcile.rs:687-728 | at most 4 + T/120 bad stops of a unit begin in any T seconds of a session |
| Spacing.FullWaitIff | src/reconcile.rs:687-728 | the unit may be stopped again exactly from its last recorded time plus the wait on; from the end of the pass on, that is a full wait after its last stop began iff the stop was not recorded ahead of its beginning or that wait is over already; the unit is free when its own stop ends iff that stop, with what the batch did before it, outlasted the wait |
| Outlasting.StopsAreNotSpaced | src/reconcile.rs:688-723 | a run from boot, with no command over its ten-second limit, in which a unit's second stop begins at the moment its first one ended, with recorded times twenty seconds apart |
| Backoff.WarningsAreSpaced | src/reconcile.rs:703-719 | a unit that came back is warned about iff it never was in this session or the last warning is a minute old; no other entry changes |
| Backoff.EveryGameStopIsNoted | src/reconcile.rs:615-723 | the backoff takes note of exactly the stops made for a game, each once and in order, as bad iff it needed the kill or failed |
| Accounting.RunIsBooked | src/reconcile.rs:1128-1174 | over every run, each counter and histogram is what the log adds up to |
| Accounting.EverySeriesIsSeeded | src/state.rs:646-653 | every series of every configured unit exists from the start |
| Accounting.CountersConserve | src/reconcile.rs:1128-1174 | each outcome and each trigger is counted under its own name; graceful + killed + failed equals the total-stage count; the stop stage falls short by exactly the evictions whose first probe failed; `yielded` stays zero |
| Accounting.BucketsCountDurations | src/state.rs:437-468 | over every run, each bucket counts the unit's durations at or below its bound |
| Manual.OneReplyEach | src/reconcile.rs:377-512 | over every run, exactly one reply per manual trigger, in the order they were handled |
| Manual.StartVerdictIff | src/reconcile.rs:378-471 | the reply to a manual start, off the log: held by a game iff the state was not `available` or the gate's scan saw a game; preempted iff a unit found busy outranks the target, everyone having been asked; `Ok` iff neither, the scan was clean and the unit was seen running or its start succeeded; failed iff the scan failed, the name is unknown, or the start failed and a probe after it does not say running |
| Manual.RunAnswersRightly | src/reconcile.rs:378-471 | over every run, every manual start got that reply |
| Manual.StartVerdictMeans | src/reconcile.rs:378-471 | a refused start touches no unit and no ledger; a failed one no ledger; an accepted one ends with the unit started or seen running, its hold gone and its resume still owed |
| Manual.StopVerdictMeans | src/reconcile.rs:472-511 | a stop always leaves the unit held and owing a resume; `Ok` iff the eviction succeeded, and then the last probe said stopped; an unknown name touches nothing |
| Gate.StartSurvivesItsOwnPass | src/reconcile.rs:377-471 | an accepted start is not stopped, killed or evicted by its own pass, in any world where the next scan is clean and nobody new turns busy |
| Gate.StillUnrivalled | src/reconcile.rs:1088-1100 | the gate's verdict carries over to the pass's own busy answers |
| Settling.Settles | src/reconcile.rs:574-896 | from any `available` state of a steady world the demand never drops, the second and later passes start and resume nothing, the third and later touch nothing |
| Playing.SettlesForTheGame | src/reconcile.rs:594-728 | from `available`, or from `gaming` once the backoffs have run out, with a game up from then on in an otherwise steady world: after every pass `gaming` is published and no unit below the game's priority runs, and every pass after the first stops, starts and resumes nothing |
| Playing.GameLetsGo | src/reconcile.rs:514-556 | with the game gone, once the grace has passed since the first pass without it, the next pass and every later one publish `available` |
| Playing.SettlesAfterTheGame | src/reconcile.rs:514-896 | from there on the daemon settles as it does without a game |
| Settling.OnePassCalms | src/reconcile.rs:808-896 | after one pass every unheld, unpreempted eager unit runs and every such running unit has had its resume |
| Settling.PassEffect | src/reconcile.rs:574-896 | the exact run states and debts a pass leaves in a steady world |
| Triggers.DebounceProcEvents | src/main.rs:679-697 | the inner loop closes the window exactly when `TaskAfter` does, with the same trigger |
| Triggers.AlwaysWellDriven | src/main.rs:610-697 | over every script, passes come in order, each with its own cause, and an open window keeps its first deadline |
| Triggers.DeliberateTriggersDrive | src/main.rs:648-657 | every deliberate trigger taken from the channel drives exactly one pass, in order |
| Triggers.TicksDrive | src/main.rs:632-636 | every tick that finds the loop waiting drives one `Timer` pass there and then, in order, and no other pass comes of a tick |
| Triggers.ShutsDownIff | src/main.rs:628-646 | the loop is over iff it met the shutdown signal or the end of the channel while waiting |
| Triggers.NothingAfterStop | src/main.rs:628-646 | no pass follows that moment |
| Triggers.IdleIff | src/main.rs:624-697 | the loop is waiting iff it is not over and every window has closed: nothing else makes it deaf to a tick |
| Triggers.ProcEventIsCovered | src/main.rs:679-697 | a process event taken is followed by a later-starting pass unless its window is still open |
| Triggers.WindowCloses | src/main.rs:682-696 | a window closes at the first deliberate trigger, closed channel, or wake-up at or after its fixed deadline, and each closing is one pass |
| Triggers.StormsCollapse | src/main.rs:679-697 | a pass set off by a window's timer comes at least 150 ms after the pass before it |
| Daemon.ReconcileTask | src/main.rs:610-665 | the loop runs exactly the passes `TaskAfter` names, in order, on the arbiter's state |
| Daemon.Daemon | src/main.rs:395-425 | a startup pass, then the loop |
| Daemon.EveryRequestIsAnswered | src/main.rs:610-697 | end to end: the replies sent are exactly the manual requests taken from the channel, once each, in order |
| Calendar.CivilFromDaysIsTheCalendar | src/state.rs:777-787 | for every day, before the epoch too: a real date, whose count from 1970-01-01 by years and months is the input, and the only such date |
| Calendar.DaysFromCivilInverts | src/state.rs:777-787 | Hinnant's forward and backward algorithms invert one another on every date |
| Calendar.CivilFromUnixSecsIsTheCalendar | src/state.rs:770-790 | the only valid date and time whose second count is the input |
| Calendar.ForwardCountIsTheDayCount | src/state.rs:762-764 | the closed-form count equals walking the calendar |
| Calendar.YearOfEraIsTheSplit | src/state.rs:780-783 | the leap-day corrections line up with the start of every one of the 400 years |
| Calendar.StepsStayInRange | src/state.rs:780-786 | every intermediate lies in the range its comment gives |
| Calendar.NothingTruncates | src/state.rs:770-787 | on 64-bit input no signed value overflows and the year is at least 1970 |
| Rfc3339.TwentyCharactersIff | src/state.rs:751-757 | the text has twenty characters iff the time is at most the last second of 9999 |
| Rfc3339.ReadsBack | src/state.rs:751-757 | the text is a date-time of sections 5.6 and 5.7 of RFC 3339, and reading it returns the time |
| Rfc3339.TextOrderIsTimeOrder | src/state.rs:751-757 | up to 9999, earlier text iff earlier time, equal text iff equal second |
| Rfc3339.OrderedIff | src/state.rs:751-757 | all texts up to a bound sort by time iff the bound is at most the last second of 9999 |
| Rfc3339.OrderBreaksAfter | src/state.rs:751-757 | one second later sorts before |
| Rfc3339.FormatDropsFractions | src/state.rs:751-757 | for every system time, equal text iff the same whole second, with times before the epoch read as the epoch |
| Labels.EscIsTheEncoding | src/http.rs:692-702 | three chained replacements with the early return are one encoding of characters |
| Labels.EscReadsBack | src/http.rs:692-702 | no raw newline, and the value reads back up to its closing quote whatever follows |
| Labels.OnlyEscapedTextReads | src/http.rs:692-702 | the reader accepts nothing but escaped text, so the encoding is one to one and onto |
| Labels.AppendSample | src/http.rs:660-674 | the loop over the labels appends `SampleText` |
| Labels.SampleReadsBack | src/http.rs:660-674 | name, every label value and the number read back from the front of any page |
| Labels.SampleIsOneLine | src/http.rs:660-674 | the only newline of a sample is its last character |
| Labels.PageReadsBack | src/http.rs:660-674 | a page of samples reads back exactly, whatever the label values |

## Left out

- Process scanning, `nvidia-smi`, sysfs, `systemctl` and every spawned command: answers of the world. The `classify` rules are an arbitrary function of the command line.
- `/status` refresh, model listing, log lines, `since` and `last_evictions`: nothing decides on them. The GPU reads taken only for logs appear as the time they may take.
- Presence detection, control-group parsing, CSV parsing, the configuration reader and its defaults, the command line, the tray, HTTP routes and sockets.
- Hook-failure counters, and every metric other than evictions, durations, restarts and passes.
- Lock poisoning, task scheduling and the shutdown join: one loop writes the state, so the model is sequential.
- Two reads of the clock with no event between them give the same time; any delay falls on the events around them.
- Metrics.Observe: counters are unbounded and durations are reals, so 64-bit wrap-around and floating-point rounding are not modelled. The histogram is a value the map holds, so its update in place is not captured.
- Gpu.UnitsShareTheMemory: 64-bit sums are unbounded here. Nothing like it is claimed for `vram_match`, where one process may match two units.
- Triggers.ProcEventIsCovered: the channel's own capacity, and process events dropped before they enter it, are outside the model. A script says which arm each wait took and when: the period of the backstop timer and the fairness among several ready arms are not modelled.
- Settling.Settles: the steady world also has every unit probeable, stoppable and startable, and a resume command, where there is one, that names a program.
- Labels.SampleReadsBack: strings are sequences of characters, not UTF-8 bytes; metric names and label names are identifiers and the printed number has no newline, as at every call.
- Rfc3339.ReadsBack: fractional seconds, offsets other than `Z` and leap seconds, which the formatter never writes, are not read.

# Incident orchestration model

A Dafny model of the incident-orchestration core of a self-healing
e-commerce operations dashboard. The system has two halves, and the model
covers both.

- **Backend.** A Flask backend (`backend/app.py`, `backend/database.py`):
  - stores signals, merchants, agents, OODA processes and
    human-in-the-loop (HIL) approval requests;
  - drives each process through the observe, orient, decide and act stages;
  - computes the dashboard metrics.
- **Frontend.** A React frontend:
  - the dashboard page animates a local demo OODA run;
  - it queues a demo approval request for high-risk signals;
  - it merges the backend's data on every refresh;
  - the header posts demo signals and keeps a notification list;
  - the blast-radius map colours merchants by their worst signal;
  - the live signal log splits signals into active and resolved tabs;
  - the OODA panel shows stage statuses and the chain of thought;
  - `config.js` formats durations, relative times and labels.

Modules, one concept each:

| Module | File | What it holds |
|---|---|---|
| `Outcomes` | `outcomes.dfy` | `Option` and `Result`. |
| `Text` | `text.dfy` | Decimal rendering of numbers (with its inverse), prefix tests and character search. |
| `Ooda` | `ooda.dfy` | The four stages and the three stage statuses. The status vector and when it is well formed (complete stages, then at most one active, then pending). The backend's step on it. |
| `Ordering` | `ordering.dfy` | A descending insertion sort on sequences. It is the model of `ORDER BY ... DESC`. |
| `Database` | `database.dfy` | The tables as rows. The `Store` class whose methods are the writes of `backend/database.py`. The signal query, the metric formulas and the resolution statistics. |
| `App` | `app.py` handlers in `app.dfy` | The request handlers of `backend/app.py` over a `Database.Store`: validation, starting and advancing a process, the fallback stage outputs, and the HIL endpoints. |
| `Messages`, `Views` | `messages.dfy`, `views.dfy` | The fixed texts the demo shows, and the records the frontend receives. |
| `Dashboard` | `dashboard.dfy` | The `DashboardState` class, whose fields are the page's state. Its methods are the page's handlers. |
| `BlastRadius` | `blast_radius.dfy` | The severity reducer, as a loop, against a reference maximum. |
| `Notifications` | `notifications.dfy` | The header's `NotificationCenter` class and the demo scenario rotation. |
| `SignalLog` | `signal_log.dfy` | The tab filter and the severity classes, labels and badges. |
| `Visualizer` | `visualizer.dfy` | Stage-status defaults, the current stage, connectors and numbered reasoning. |
| `Formatting` | `formatting.dfy` | `formatDuration` with a parser that inverts it, `formatRelativeTime` and `getLabel`. |

Conventions:

- **Time.** Timestamps are integers: seconds on the backend, milliseconds
  where the frontend reads the clock.
- **Identifiers.** Fresh uuids are parameters (`uuidHex`).
- **Request bodies.** JSON request bodies are maps from field name to string.
- **Stage outputs.** Every stage output is the backend's fallback output.
- **Asynchrony.** Each `await` or timer of the frontend is one step of a
  method, in the order the code runs them.

Where the code does less than the system's description promises, the model
follows the code and proves what the code does:

- a HIL request can be resolved again, and the last decision wins
  (`Database.ResolveTwiceOverwrites`, `Database.ApprovedThenRejected`);
- the blast-radius map counts resolved signals like active ones
  (`BlastRadius.StatusIgnored`);
- notifications are never deduplicated (`Notifications.NotificationCenter.Push`);
- the backend step passes from decide to act without any risk check
  (`App.NoRiskGate`).

## Model

| member | source | states |
|---|---|---|
| Database.GenerateId | backend/database.py:41-43 | The id starts with the prefix, followed by at most 12 characters taken from the front of the uuid's hex text. |
| Database.FindSignal | backend/database.py:581-591 | A found signal is a stored row with that id; none is found exactly when no row has the id. |
| Database.FindAgent | backend/database.py:697-702 | A found agent is a stored row with that id; none is found exactly when no row has the id. |
| Database.FindHil | backend/database.py:802-815 | A found request is a stored row with that id; none is found exactly when no row has the id. |
| Database.AgentsWithStatus | backend/database.py:675-694 | Keeps exactly the agents with the given status, or all agents when no status is given. |
| Database.FirstWithStatus | backend/database.py:675-694 | The first agent returned is the first agent in the table with that status. |
| Database.UpdateSignalRows | backend/database.py:661-670 | Only the row with the id changes. It takes the new status, and the new agent when one is given. |
| Database.FindSignalAfterUpdate | backend/database.py:661-670 | Looking an updated signal up finds the new status. |
| Database.ReplaceAgentRows | backend/database.py:705-713 | The row with the agent's id becomes the new record; every other row is unchanged. |
| Database.FindAgentAfterReplace | backend/database.py:705-713 | Looking an updated agent up finds exactly the new record. |
| Database.ResolveHilRows | backend/database.py:836-849 | The request with the id takes the action as its status and records the resolution. Every other request is unchanged. |
| Database.ResolveTwiceOverwrites | backend/database.py:846-848 | Resolving twice equals resolving once with the second decision: nothing guards the first one. |
| Database.ApprovedThenRejected | backend/database.py:836-849 | An approved request that is then rejected reads as rejected. |
| Database.FindHilAfterResolve | backend/database.py:836-849 | After resolving an existing id, looking it up finds the new status. |
| Database.PendingRows | backend/database.py:818-833 | Keeps exactly the pending requests. |
| Database.PendingHilRequests | backend/database.py:818-833 | The pending requests, newest first, as a permutation of the pending rows. |
| Database.Window | backend/database.py:630-643 | A look-back window exists exactly for 24h, 7d and 30d. |
| Database.MatchingExactly | backend/database.py:606-646 | A row is kept exactly when it passes every filter. The filters: status and severity equality; tier in the list or severity SYSTEM; phase unless empty or 'all', bypassed by SYSTEM; timestamp within the window. |
| Database.Join | backend/database.py:598-602 | One joined row per signal, in order, holding that signal. A row carries a merchant tier exactly when the signal names a stored merchant. |
| Database.TakeLimit | backend/database.py:648-649 | A prefix of length `limit`, or the whole sequence when the limit is negative or larger. |
| Database.QuerySignals | backend/database.py:594-658 | The result lists matching rows in descending timestamp order, drawn from the matches. Its length is the limit, capped at the number of matches. Every row left out is no newer than every row returned. |
| Database.QueryResult | backend/database.py:648-649 | The first `n` rows of the sorted matches are descending, match the query, and are the newest matches. |
| Database.NewestFirst | backend/database.py:648 | The first `n` rows after sorting are descending and no older than any row after them. |
| Database.OpenRowsExactly | backend/database.py:1051-1056 | A row counts as open exactly when it is in scope under the tier, phase and period filters and its status is neither resolved nor processed. |
| Database.CountAutoAtMost | backend/database.py:1042-1047 | The auto-resolved count is at most the resolved total. It equals the total exactly when every resolved signal qualifies, and is 0 exactly when none does. |
| Database.WeightedCounts | backend/database.py:1021-1026 | Weighting the per-severity counts equals summing a weight per signal. |
| Database.CurrentMetrics | backend/database.py:963-1100 | Revenue protected is 15000·C + 5000·E + 1000·W + 100·S over the resolved filtered signals, and is at least 0. The total is the count of those signals. The auto count is the number of them with an agent, severity SYSTEM or source SystemMonitor. Human intervention is total minus auto and never negative. The penalty is 15·C + 5·E + W over the open signals (`OpenRows`). The health score is max(10, 100 − penalty): in [10, 100], and 100 exactly when the penalty is 0. Active migrations is the number of merchants whose phase is 'migration', at most the number of merchants. |
| Database.Migrating | backend/database.py:1077-1083 | A merchant is counted exactly when it is stored and its migration phase is 'migration'. |
| Database.MigratingAtMost | backend/database.py:1077-1083 | The migration count never exceeds the number of merchants. |
| Database.ActiveMigrationsIgnoreFilters | backend/database.py:1077-1083 | The migration count is the same whatever the signals, tier, phase, period and time: both branches of the tier test run the same unfiltered count. |
| Database.ResolutionStats | backend/database.py:1122-1153 | Fails with a division by zero exactly when `days` is 0 or negative (no day is counted, so the overall ratio divides by zero). Otherwise gives one row per day: row i has label `days_labels[i mod 7]`, auto 15 + 3i + 2·(i mod 3), human 3 + (i mod 2), and their sum. The totals are the column sums, and they are positive. |
| Database.HumanTotalClosedForm | backend/database.py:1132-1144 | The human column sums to 3·days + days div 2. |
| Database.Store.CreateSignal | backend/database.py:553-578 | Appends one row with a fresh `sig_` id, stamped with the given time, else the current time. Absent fields take the column defaults: INFO, UNKNOWN, Unknown, pending. Other tables are unchanged. |
| Database.Store.UpdateSignal | backend/database.py:661-670 | The signals table becomes `UpdateSignalRows` of the old one; other tables are unchanged. |
| Database.Store.UpdateAgent | backend/database.py:705-713 | The agents table becomes `ReplaceAgentRows` of the old one; other tables are unchanged. |
| Database.Store.CreateOodaProcess | backend/database.py:718-729 | A new process with observe active and the other three stages pending, which is well formed. It has no solution or actions. |
| Database.Store.UpdateProcess | backend/database.py:752-765 | The process with the id takes the new record; other tables are unchanged. |
| Database.Store.CreateHilRequest | backend/database.py:770-799 | Appends a pending request with a `hil_` id and no resolution, created now and expiring five minutes later. It carries the caller's agent, signal, process, title, description and root cause. The priority defaults to medium, and a missing proposed action or metrics is stored as `{}`. Other tables are unchanged. |
| Database.Store.ResolveHilRequest | backend/database.py:836-849 | The table becomes `ResolveHilRows` of the old one. The request is returned exactly when the id existed, with the action as its status. |
| App.FirstMissingField | backend/app.py:183-186 | Gives the first required field the body lacks, in order, and none exactly when the body has them all. |
| App.ValidateSignalBody | backend/app.py:176-191 | A body is accepted exactly when it is present, non-empty, has `type`, `severity` and `source`, and has one of the five severities. Every rejection is a 400. An absent or empty body gives "Request body is required", and a missing field gives a 400 naming the first one missing. On success all the fields and the body's time are carried over. |
| App.CreateSignal | backend/app.py:176-196 | Succeeds exactly when the body passes validation. On a validation error nothing is written. On success exactly one signal is appended: its id is `sig_` plus the uuid, it carries the body's severity, type, source, endpoint, merchant and agent, its status is the body's or pending, and its time is the body's or the current time. The other tables are unchanged. |
| App.PickAgent | backend/app.py:315-321 | The first idle agent when there is one, otherwise the first agent; none exactly when there are no agents. |
| App.StartOodaProcess | backend/app.py:302-342 | A missing signal id gives a 400, an unknown signal a 404, and no agents a 500; none of these changes anything. A known signal with at least one agent always succeeds. On success the process starts at observe. The picked agent is processing at observe with progress 0, and the signal is processing under that agent. |
| App.FallbackSolution | backend/app.py:520-525 | A config change at confidence 87. Its risk is high exactly for CRITICAL signals and medium otherwise. |
| App.Fallback | backend/app.py:491-536 | Each stage gets its kind of output: five findings headed by the detected-signal line; two related items; a five-step chain with the fallback solution; or three actions. |
| App.FindCurrentStage | backend/app.py:362-379 | The loop finds the first active stage, else the first pending one. It finds none exactly when all four are complete. |
| App.AgentAfterStep | backend/app.py:403-422 | Id and name are kept. After observe, orient or decide the agent keeps its status and signal, points at the next stage, and has progress 25 per completed stage. After act it is idle, with no signal, no stage and progress 0. |
| App.CompleteStage | backend/app.py:381-422 | The current stage's output is stored and the process record is updated. The agent moves on, or is released after act. The signal is resolved exactly when act completes. |
| App.AdvanceOodaStep | backend/app.py:346-430 | A missing id gives a 400 and an unknown process a 404. A known id always succeeds: "already complete" exactly when no stage is active or pending, and then nothing changes. Otherwise the current stage is completed: the process takes the stage's fallback output and the stepped statuses, the agent is updated as `AgentAfterStep` says, and the signal is resolved exactly when the completed stage is act. |
| App.ProgressCountsCompletedStages | backend/app.py:403-413 | After completing stage i < 3, progress is 25·(i+1). The agent's task stage is the stage that becomes active. |
| App.NoRiskGate | backend/app.py:403-422 | From decide active, one step makes act active and the next completes the process, whatever the proposal's risk. The agent moves on to act, and the second step leaves it idle with no signal. |
| App.GetHilRequests | backend/app.py:542-546 | With status 'pending' (the default) gives the pending requests, newest first; with any other status gives nothing. |
| App.ResolveHilRequest | backend/app.py:575-590 | An action other than approved or rejected is a 400 and changes nothing. An unknown id is a 404. Otherwise the status is overwritten, resolved by `human_operator`. Signals, agents, processes and merchants are unchanged. |
| App.CreateHilRequest | backend/app.py:559-571 | An error exactly when a required field is missing, and then nothing is stored. Otherwise one pending request is appended with the `hil_` id, the body's agent, signal, process, title, description, root cause, proposed action and metrics, the body's priority or medium, created now and expiring five minutes later. Signals, agents, processes and merchants are unchanged. |
| Ooda.StageIndex | backend/app.py:362 | Each stage has its position in observe, orient, decide, act order. |
| Ooda.CurrentIndexOfWellFormed | backend/app.py:362-379 | On a well-formed vector the step's stage is the one right after the completed ones, and there is none exactly when all four are complete. |
| Ooda.StepPreservesWellFormed | backend/app.py:385-406 | A step keeps the vector well formed and completes one more stage; a finished vector is left unchanged. |
| Ooda.StepIsMonotone | backend/app.py:385-406 | No stage ever moves back from complete to active, or from active to pending. |
| Ooda.ActWaitsForDecide | backend/app.py:403-413 | In a well-formed vector, act has started only if observe, orient and decide are complete. |
| Ooda.FourStepsFinish | backend/database.py:726-727 | Four steps take a freshly created process to all stages complete. |
| Ordering.SortDescCorrect | backend/database.py:648 | The sort gives a descending permutation of its input. |
| Ordering.PrefixHoldsLargest | backend/database.py:648-649 | A limited prefix of a descending sequence holds keys at least as large as every row after it. |
| Text.ReplaceUnderscores | frontend/src/components/layout/Header.jsx:138 | Every '_' becomes ' ' and every other character stays. |
| Dashboard.FirstProcessing | frontend/src/pages/Dashboard.jsx:71 | The first agent whose status is processing, and none exactly when no agent is processing. |
| Dashboard.FindSignalById | frontend/src/pages/Dashboard.jsx:74 | A listed signal with the id, and none exactly when no signal has it. |
| Dashboard.MergeActive | frontend/src/pages/Dashboard.jsx:70-77 | With a process on screen, agent and signal stay. With none, the first processing agent replaces them when it has a task signal, together with that signal from the list (or none); when no agent is processing, or the first one has no task, they stay. They change only in that case. |
| Dashboard.DemoTrace | frontend/src/pages/Dashboard.jsx:177-322 | A high-risk run shows four snapshots and a routine run five. |
| Dashboard.DemoHilRequest | frontend/src/pages/Dashboard.jsx:265-282 | The queued request's id is `hil_` followed by the current milliseconds. Its title is "Approve High-Risk Fix: " plus the signal's type. It comes from the demo agent for the signal's id, is created at the current time, has high risk and is pending. |
| Dashboard.WithoutId | frontend/src/pages/Dashboard.jsx:101 | Removes exactly the requests with that id. |
| Dashboard.DashboardState.constructor | frontend/src/pages/Dashboard.jsx:10-25 | The page starts loading, with empty lists, nothing on screen and nothing sent. |
| Dashboard.DashboardState.HilQueue | frontend/src/pages/Dashboard.jsx:395 | The queue shows the demo requests first, then the backend's, each in order. |
| Dashboard.DashboardState.StoreRefresh | frontend/src/pages/Dashboard.jsx:53-67 | Stores the refresh results. A failed fetch stores nothing for metrics or status, or an empty list. |
| Dashboard.DashboardState.FollowBackendAgent | frontend/src/pages/Dashboard.jsx:71-76 | The agent and signal become `MergeActive` of the fetched lists; nothing else changes. |
| Dashboard.DashboardState.LoadData | frontend/src/pages/Dashboard.jsx:43-85 | Stores the refresh. The agent and signal are replaced only if the handler saw no process on screen. |
| Dashboard.DashboardState.AnimateToDecide | frontend/src/pages/Dashboard.jsx:188-246 | Shows the first three demo snapshots and puts the demo agent and the signal on screen. |
| Dashboard.DashboardState.RunOodaDemo | frontend/src/pages/Dashboard.jsx:177-337 | Shows the whole demo trace, in order. A high-risk run prepends exactly one pending `hil_` request and sends nothing. A routine run sends the signal's resolve and reloads. |
| Dashboard.DashboardState.HandleDemoSignal | frontend/src/pages/Dashboard.jsx:341-351 | With a signal, lists it, runs the demo and reloads. Without one, it only reloads. |
| Dashboard.DashboardState.ApproveHil | frontend/src/pages/Dashboard.jsx:97-157 | A `hil_` id leaves the demo queue. If the run awaits approval, act runs to completion, the signal is resolved and the screen is cleared; otherwise nothing more happens. Any other id is approved on the backend, with a reload when that succeeds. |
| Dashboard.DashboardState.RejectHil | frontend/src/pages/Dashboard.jsx:159-174 | A `hil_` id leaves the queue and clears the screen, with nothing sent. Any other id is rejected on the backend, with a reload when that succeeds. |
| Dashboard.DashboardState.PollAsWritten | frontend/src/pages/Dashboard.jsx:35-41 | The poll as written: it merges as if no process were on screen. |
| Dashboard.DashboardState.Poll | frontend/src/pages/Dashboard.jsx:35-41 | The poll as intended: with a process on screen, agent and signal stay. |
| Dashboard.DemoVectors | frontend/src/pages/Dashboard.jsx:192-322 | Gives the status vector of each demo snapshot, in order: observe active; orient active; decide active; then decide complete with act pending (high risk) or act active and complete (routine). |
| Dashboard.DemoSnapshotsWellFormed | frontend/src/pages/Dashboard.jsx:192-322 | Every demo snapshot k is well formed with exactly k stages complete. |
| Dashboard.DemoFollowsSteps | frontend/src/pages/Dashboard.jsx:192-322 | Each demo snapshot is the backend's step of the one before. The exception is the high-risk pause, which completes decide and keeps act pending. |
| Dashboard.HighRiskRunWaits | frontend/src/pages/Dashboard.jsx:250-287 | A high-risk run never starts act. It ends with a high-risk proposal and six reasoning lines, awaiting approval. |
| Dashboard.RoutineRunFinishes | frontend/src/pages/Dashboard.jsx:290-322 | A routine run never awaits approval and ends with every stage complete and its two actions. |
| Dashboard.ApprovalCompletesRun | frontend/src/pages/Dashboard.jsx:104-121 | Approving the paused run takes it the backend's last two steps, ending with the two approved actions. |
| Dashboard.BackendRequestsNeverResolved | frontend/src/pages/Dashboard.jsx:97-174 | Backend request ids also start with `hil_`, so approving or rejecting them from the page never reaches the backend's resolve endpoint. |
| Dashboard.ApproveRequestsIntended | frontend/src/pages/Dashboard.jsx:97-157 | With the demo test made on the demo queue, an id outside the queue is approved on the backend, and an id in the queue sends no resolve call. |
| Dashboard.RejectRequestsIntended | frontend/src/pages/Dashboard.jsx:159-174 | With the same test, nothing is sent exactly for a queued demo id; any other id is rejected on the backend. |
| Dashboard.IntendedRequestsReachBackend | frontend/src/pages/Dashboard.jsx:97-174 | When every queued demo id starts with `hil_`, the corrected handlers send the backend's resolve call for every id outside the queue. For queued demo ids they send exactly what the handlers as written send. |
| Dashboard.StalePollReplacesDemo | frontend/src/pages/Dashboard.jsx:39 | A poll while the demo runs replaces the demo agent with a processing backend agent. |
| BlastRadius.Contribution | frontend/src/components/dashboard/BlastRadiusMap.jsx:14-20 | CRITICAL gives critical; exactly ERROR and WARN give warn; exactly the other severities contribute nothing. |
| BlastRadius.WorseBounds | frontend/src/components/dashboard/BlastRadiusMap.jsx:16-19 | Combining two tiers gives the larger one, so it is an upper bound of both. |
| BlastRadius.MerchantSeverityMap | frontend/src/components/dashboard/BlastRadiusMap.jsx:10-22 | The loop's map has an entry exactly for merchants with a contributing signal, and the entry is the reference maximum `TierOf`. |
| BlastRadius.TierOfIsMaximum | frontend/src/components/dashboard/BlastRadiusMap.jsx:10-22 | The tier is absent exactly when no signal of the merchant contributes (and for an empty id). It is reached by one of the merchant's signals and bounds all of them. |
| BlastRadius.OrderIrrelevant | frontend/src/components/dashboard/BlastRadiusMap.jsx:11 | Reordering or repeating signals does not change any tier. |
| BlastRadius.StatusIgnored | frontend/src/components/dashboard/BlastRadiusMap.jsx:11-21 | Changing a signal's status, for example resolving it, changes no tier. |
| BlastRadius.NeverDowngrades | frontend/src/components/dashboard/BlastRadiusMap.jsx:17 | A further signal never lowers a merchant's tier. |
| BlastRadius.CardColour | frontend/src/components/dashboard/BlastRadiusMap.jsx:51 | A card is critical exactly when one of the merchant's signals is CRITICAL. It is warn exactly when none is but one is ERROR or WARN, and nominal otherwise. |
| BlastRadius.DisplayMerchants | frontend/src/components/dashboard/BlastRadiusMap.jsx:25-37 | The loaded merchants, or eight placeholders with distinct ids when none were loaded. |
| BlastRadius.Logo | frontend/src/components/dashboard/BlastRadiusMap.jsx:56 | The logo, else the first letter of the name, else nothing. |
| Notifications.Unread | frontend/src/components/layout/Header.jsx:100 | Counts the unread notifications. It is 0 exactly when all are read. |
| Notifications.SignalCategory | frontend/src/components/layout/Header.jsx:137 | CRITICAL gives critical and WARN gives warning. Everything else, ERROR included, gives info. |
| Notifications.SignalTitle | frontend/src/components/layout/Header.jsx:138 | "New Signal: " followed by the type with underscores as spaces, or "System Event" when there is no type. |
| Notifications.AdvanceIsModular | frontend/src/components/layout/Header.jsx:124-125 | After k presses from index i, the index is (i + k) mod 6. |
| Notifications.SixPressesVisitEachOnce | frontend/src/components/layout/Header.jsx:124-125 | Six presses visit every scenario exactly once and return to the starting index. |
| Notifications.RotationAt | frontend/src/components/layout/Header.jsx:124-130 | The j-th scenario posted is the one at the index the j-th press started from. |
| Notifications.NotificationCenter.constructor | frontend/src/components/layout/Header.jsx:59-98 | Starts at scenario 0 with the initial notifications, three of them unread. |
| Notifications.NotificationCenter.MarkAllRead | frontend/src/components/layout/Header.jsx:102-104 | Empties the list, so the unread count is 0. |
| Notifications.NotificationCenter.Push | frontend/src/components/layout/Header.jsx:142 | Prepends without deduplication. The rest follows unchanged, and the unread count grows by one. |
| Notifications.NotificationCenter.InjectDemo | frontend/src/components/layout/Header.jsx:121-153 | Posts the current scenario and advances the index mod 6. On success it prepends the signal's notification and forwards the signal. |
| Notifications.NotificationCenter.SelectSimulation | frontend/src/components/layout/Header.jsx:332 | Only the selected simulation changes. |
| Notifications.NotificationCenter.TriggerSimulation | frontend/src/components/layout/Header.jsx:170-193 | On success it prepends one critical notification naming the selection, forwards the returned signal and closes the dialog. On failure nothing changes. |
| Notifications.NotificationCenter.InjectMultiple | frontend/src/components/layout/Header.jsx:195-233 | Posts the chosen chaos scenarios in order, six unless a post fails, and then stops after the failed one. Only after all six and a successful read does it push exactly one notification and forward the latest signal. |
| SignalLog.Filtered | frontend/src/components/dashboard/LiveSignalLog.jsx:35-41 | No signals gives an empty list. The 'active' tab keeps exactly the unresolved signals, and any other tab exactly the resolved ones. |
| SignalLog.KeepMembers | frontend/src/components/dashboard/LiveSignalLog.jsx:35-41 | A tab holds exactly the signals of the list that belong to it. |
| SignalLog.KeepDistributes | frontend/src/components/dashboard/LiveSignalLog.jsx:35 | Filtering distributes over concatenation, so the original order is kept. |
| SignalLog.TabsPartition | frontend/src/components/dashboard/LiveSignalLog.jsx:36-40 | Together, the two tabs hold every signal exactly as often as the list. |
| SignalLog.ResolveMovesTabs | frontend/src/components/dashboard/LiveSignalLog.jsx:36-40 | Resolving an active signal moves exactly one entry from the active tab to the resolved one. |
| SignalLog.SeverityClass | frontend/src/components/dashboard/LiveSignalLog.jsx:10-19 | The class is one of the five, and it is 'info' exactly for severities other than CRITICAL, ERROR, WARN and SYSTEM. |
| SignalLog.SeverityLabel | frontend/src/components/dashboard/LiveSignalLog.jsx:21-30 | An unknown severity shows its own text. A known one shows its configured label when that is non-empty, else the severity. |
| SignalLog.DefaultLabelsShowSeverity | frontend/src/services/config.js:133-137 | Under the default labels every entry shows its raw severity. |
| SignalLog.BadgeColours | frontend/src/components/dashboard/LiveSignalLog.jsx:78 | CRITICAL and ERROR give critical, WARN gives warning, SYSTEM gives success, and everything else gives info. |
| Visualizer.GetStageStatus | frontend/src/components/dashboard/OODAVisualizer.jsx:16-20 | With no process, or no status for the stage, the stage reads pending; otherwise it reads the stage's status. |
| Visualizer.FindActive | frontend/src/components/dashboard/OODAVisualizer.jsx:27 | Gives the first active stage of the list, and none exactly when no stage is active. |
| Visualizer.CurrentStage | frontend/src/components/dashboard/OODAVisualizer.jsx:9-27 | The first active stage in observe, orient, decide, act order; none when no stage is active. |
| Visualizer.CurrentStageIsFirstActive | frontend/src/components/dashboard/OODAVisualizer.jsx:27 | The panel's current stage is the backend's first active index, read as a stage. |
| Visualizer.CurrentStageFollowsCompleted | frontend/src/components/dashboard/OODAVisualizer.jsx:27 | On a well-formed process the current stage is the one right after the completed ones. There is none once all four are complete. |
| Visualizer.ChainOfThought | frontend/src/components/dashboard/OODAVisualizer.jsx:22-25 | The decide reasoning, or nothing when there is no process or no reasoning. |
| Visualizer.NumberedThoughts | frontend/src/components/dashboard/OODAVisualizer.jsx:84-86 | Step i is shown with number i + 1. |
| Visualizer.Connectors | frontend/src/components/dashboard/OODAVisualizer.jsx:69-71 | There are three connectors, each complete exactly when the stage before it is. |
| Visualizer.ConnectorsFollowProgress | frontend/src/components/dashboard/OODAVisualizer.jsx:69-71 | On a well-formed process, connector i is complete exactly when i is less than the number of completed stages. |
| Visualizer.EmptyPanelShowsNothing | frontend/src/components/dashboard/OODAVisualizer.jsx:95 | When the placeholder shows, every stage is pending and there is no current stage, reasoning or complete connector. |
| Formatting.DurationRoundTrip | frontend/src/services/config.js:166-176 | Parsing a formatted duration gives the seconds back below an hour, and the seconds rounded down to the minute from an hour on. |
| Formatting.SecondsRoundTrip | frontend/src/services/config.js:167 | Below a minute, "{s}s" parses back to s. |
| Formatting.MinutesSecondsRoundTrip | frontend/src/services/config.js:168-172 | "{m}m {s}s" parses back to the seconds. |
| Formatting.WholeMinutesRoundTrip | frontend/src/services/config.js:168-172 | "{m}m" (no seconds part) parses back to the seconds. |
| Formatting.HoursMinutesRoundTrip | frontend/src/services/config.js:173-175 | "{h}h {m}m" parses back to the seconds, with leftover seconds dropped. |
| Formatting.WholeHoursRoundTrip | frontend/src/services/config.js:173-175 | "{h}h" (no minutes part) parses back to whole hours. |
| Formatting.WithUtcSuffix | frontend/src/services/config.js:196-202 | Appends at most one character. The result is marked UTC or carries an offset. It is unchanged exactly when the text already ends in 'Z' or has a '+'. |
| Formatting.UtcSuffixIdempotent | frontend/src/services/config.js:196-202 | Adding the suffix twice is adding it once. |
| Formatting.RelativeTextAccurate | frontend/src/services/config.js:208-212 | A negative difference reads "just now". Otherwise the text gives the count in the right unit: seconds below 60, minutes below 3600, hours below 86400, days beyond. |
| Formatting.FormatRelativeTime | frontend/src/services/config.js:190-213 | Gives an empty text exactly for an empty timestamp, and "NaNd ago" when parsing fails. Otherwise it gives the bucket of the elapsed whole seconds. |
| Formatting.RelativeTimeAccurate | frontend/src/services/config.js:204-212 | "just now" exactly when the timestamp is in the future. Otherwise the text's count n in unit u satisfies n·u ≤ elapsed seconds < (n+1)·u. |
| Formatting.GetLabel | frontend/src/services/config.js:141-143 | A non-empty label wins, then a non-empty default, then the fallback. |
| Formatting.LabelEmptyOnlyWhenAllAre | frontend/src/services/config.js:141-143 | The result is empty only when the label, the default and the fallback all are. |

## Left out

- Gemini stage generation (`_generate_with_gemini`, `backend/app.py:433-489`) is left out. Every stage output is the fallback output.
- The AI brief (`generate_brief`) and the header's brief modal are left out.
- SQLite connections, transactions, schema creation and the random seed data are left out. The tables are sequences of rows; processes are a map by id.
- Flask routing, CORS, the `fetch` wrappers and JSON encoding are left out. Request bodies are maps of strings, and an absent field is `None` or the empty string.
- Clocks and uuids are parameters (`now`, `nowMs`, `isoNow`, `uuidHex`). Date parsing in `formatRelativeTime` is a parameter `parse` that stands in for `new Date`. ISO timestamps compare as integers. The body's `timestamp` field reaches `App.CreateSignal` already read as a time (`bodyTime`).
- `App.StartOodaProcess`, `Database.Store.CreateSignal`, `Database.Store.CreateHilRequest`, `Database.Store.CreateOodaProcess`: the fresh id is assumed unused (a `requires`), standing in for uuid uniqueness.
- `Formatting.FormatRelativeTime`: a timestamp that does not parse gives "NaNd ago". The JavaScript arithmetic on `NaN` that produces this is not modelled.
- `Formatting.DurationRoundTrip`: covers non-negative durations only. A negative duration formats as "{s}s" and is not parsed back. The parser also accepts 'd', which `formatDuration` never produces.
- Floating-point results are left out: dev hours saved, the auto-resolution rate, `aiRatio`, `formatPercent`. So are the `Intl` formatters `formatCurrency`, `formatNumber` and `formatTime`.
- The background worker thread, `time.sleep` and timestamp shifting are left out.
- Timers, `Promise.all` and the 3-second interval are ordered sequential steps. Interleavings of a poll with a running demo other than the one shown are not modelled.
- The demo request's proposed action and metrics, and the demo scenarios' metadata, are left out. Scenarios keep type, severity, source and endpoint.
- `Notifications.NotificationCenter.InjectMultiple`: the random choices of chaos mode are a parameter `picks`.
- The label table is a parameter, except for the severity labels among the defaults.
- `Database.CurrentMetrics`: the floating-point fields (dev hours saved, the auto-resolution rate, `migration_health_change`) are left out. So are the fixed `revenue_protected_change`, `dev_hours_saved_change` and `auto_resolution_rate_change` figures (12, 5 and 2). The revenue, the counts, the penalty, the health score and `active_migrations` are modelled.
- `Database.ResolutionStats`: the per-day and overall `aiRatio` values are floating-point and are left out. The division by zero they cause when no day is counted is modelled as an error.
- Signal `metadata` is not stored in the model: it is kept as opaque JSON, and no modelled operation depends on it.
- `Database.Store.CreateHilRequest`: the proposed action and metrics arrive as JSON text and are stored as given. `json.dumps` of a structured value is not modelled.
- The backend's bookkeeping timestamps are left out: `agents.updated_at` and `current_task_started_at`, `ooda_processes.started_at`, each stage's `<stage>_completed_at`, and the process's `completed_at`. Of the last, the model keeps only whether the process finished (`completed`), so `Database.Store.CreateOodaProcess` takes no time.
- `Database.Store.ResolveHilRequest`: the time stamped into the resolution is left out; the action, the decider and the notes are kept.
- `Database.Matching`: a tier given as a single string rather than a list is not modelled. The signals route always passes a list (`backend/app.py:143-144`).
- Stage statuses are limited to pending, active and complete. An absent or empty status reads as pending.
- Config diffs, incidents, analytics, the audit log, the ROI page, the login and landing pages, the sidebar and the footer are not part of this model.

## Findings

| source | as written | input that shows it | evidently intended | confidence | as-written member | corrected member |
|---|---|---|---|---|---|---|
| frontend/src/pages/Dashboard.jsx:35-41 | The interval is installed once, with empty dependencies. It keeps the `loadData` of the first render, which saw no OODA process. So every poll's guard at line 70 reads null. | A demo run is on screen (demo agent shown), and the backend has an agent `processing` a signal. The next poll replaces the demo's agent and signal with the backend's. | While a local process is on screen, a poll leaves its agent and signal alone, as the comment at line 70 says. | medium, not executed | Dashboard.DashboardState.PollAsWritten, Dashboard.StalePollReplacesDemo | Dashboard.DashboardState.Poll |
| frontend/src/pages/Dashboard.jsx:97-174 | Approve and reject take every id starting with `hil_` for a demo request. The backend names every request `hil_` plus 12 hex digits (`backend/database.py:41-43, 772`). So a backend request is only dropped from the demo queue, or nothing happens, and the page never calls its resolve endpoint. | The queue shows a backend request `hil_0123456789ab`. Approve or Reject on it sends nothing to the backend, and the request stays pending there. | Only the page's own demo requests are handled locally; a backend request is approved or rejected through the resolve endpoint, as the comment "Check if it's a demo request" at line 98 says. | high, not executed | Dashboard.BackendRequestsNeverResolved, Dashboard.DashboardState.ApproveHil, Dashboard.DashboardState.RejectHil | Dashboard.ApproveRequestsIntended, Dashboard.RejectRequestsIntended, Dashboard.IntendedRequestsReachBackend |

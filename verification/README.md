# Verification of the workflow engine

Dafny models of the parts of the platform that keep state across crashes, with proofs about every run of them.

* **The engine** (`Store`, `Engine`). Runs, tasks, numbered attempts, lease tokens, target handles, artifacts and the
  event log are rows; each engine method is one database transaction. `Store` gives every transaction as a function
  from store to store; the class `WorkflowEngine` performs it on its fields, loops and early exits as in the source,
  and each method is proved to do what the function says. `Protocol` collects the transactions as the steps of a state
  machine that any caller may take with any lease value, however stale.
* **What holds over all runs** (`Invariant`, `Frame`, `RunControl`, `Ledger`, `Meaning`, `Outcomes`, `World`,
  `History`, `Unguarded`, `Cancellation`, `Failure`, `Recovery`, `Idle`, `Transactions`, `Witness`). The master
  invariant of the lease protocol, fencing, frozen history, the ledger of events, recovery, cancellation, failure,
  progress and termination, and the main result: whatever the schedule, the recorded outputs are the recursive
  evaluation of the workflow graph.
* **Workers, receipts and the scheduler** (`Calls`, `Workers`, `Cluster`, `ClusterSafety`, `ClusterHistory`, `Rounds`,
  `Stranding`, `Races`). `AsyncWorker.run_once` and `SlurmApptainerRunner.submit` as methods of two classes over the
  engine, and again as programs of steps that can crash between any two; an undisturbed round of the class is a run of
  the program (`Rounds`). Every history of the cluster projects onto one of the engine; an attempt gets at most one
  scheduler job unless two workers were at `sbatch` for it together, and `Races` shows histories that go wrong.
* **Acceptance** (`Graph`, `Workflows`, `Parameters`, `Ordering`, `Resolution`). The contract's checks, resolution of
  nodes, parameters and ports against a registry, cycle rejection and the deterministic topological order.
* **Warm pilots** (`Pilots`), **knowledge graph search** (`Knowledge`), **container command lines** (`Shim`).

Identifiers are compared and sorted but never taken apart, so a `Name` stands for a string by its place in the order
of strings. Database keys that the source draws at random are represented by the unique keys of their rows (an attempt
by run, node and number; an output artifact by attempt and port); lease tokens are drawn from a counter. Instants are
integers. A method that raises is modelled by a result that says so and a store that did not change, as the rolled-back
transaction leaves it. Clocks, fresh ids and what the target reports are parameters.

Five behaviours of the code shape the statements:

* `retry_task` checks nothing about live attempts. `Witness.RetryOfRunningBreaks` is a store it breaks,
  `RunControl.RetryKeepsIff` says exactly when it keeps the invariant, and the protocol's steps are the retries for
  which that condition holds. Meaning needs no such condition (`Unguarded.RetriesKeepMeaning`).
* `cancel_run` does not mark attempts in state `submitting`; claims about marked attempts are about the listed states.
  The run is still final (`Cancellation.CancellationIsFinal`). If the submitting worker dies, its attempt is live in
  every continuation of the history, as the protocol's retries spare live attempts, and nothing ever selects it
  (`Stranding.OrphanedForGood`); it can have a job by then (`Races.CanceledWhileSubmittingOrphans`). An attempt that
  is marked before its intent can end as canceled and get a job afterwards (`Races.CanceledAttemptGetsJob`).
* `run_once` does not renew its lease while it is inside `submit`. A lease that lapses there lets a second worker in,
  and then an attempt can get two jobs (`Races.LapseMakesTwoJobs`). `ClusterHistory.SecondJobIff` says exactly when
  a submission makes a second job.
* A single-artifact port refuses a second edge, but workflow inputs do not count against the limit: an edge and several
  inputs may name it (`Witness.SingleArtifactPortIsShared`). Any edge then wins over the inputs, and among inputs the
  last supplied one (`Workflows.LastEdgeWins`, `Workflows.LastInputWins`, `Workflows.InputHoldsIff`).
* Publication checks a parameter's default against its type and choices but not against its bounds
  (`Parameters.DefaultOutOfBounds`), so a request fits its declaration exactly when the defaults it uses are within
  bounds (`Parameters.MergedFitIff`).

`dafny verify dfyconfig.toml` checks everything.

## Model

| member | source | states |
|---|---|---|
| `History.SchedulingKeepsMeaning` | `src/qhpc_ecosystem/engine.py:1637-1713` | In every state reachable by any interleaving of claims, crashes, expiries, recoveries, completions, failures, cancels and guarded retries, what a succeeded task recorded equals the recursive evaluation of the graph at its node on the run's inputs |
| `History.SchedulesAgree` | `src/qhpc_ecosystem/engine.py:2042-2141` | Two histories with the same plan and inputs record the same outputs for a node, whatever their schedules |
| `Unguarded.RetriesKeepMeaning` | `src/qhpc_ecosystem/engine.py:2372-2425` | The same without any discipline: retries over live attempts whenever a user asks, releases and reports at any time; what a succeeded task recorded is still the evaluation of the graph at its node |
| `Unguarded.FreelyBuiltMeans` | `src/qhpc_ecosystem/engine.py:1637-1675` | There too, a request that builds sees only parents that show their meaning, and is the request of the evaluation |
| `Unguarded.FreeCompletionMeans` | `src/qhpc_ecosystem/engine.py:2042-2141` | A completion accepted under a lease that a retry should have ended still records the meaning |
| `Unguarded.StepIsTame` | `src/qhpc_ecosystem/engine.py:1298-2425` | Every transaction in such a store keeps artifacts, plans and inputs, lets only ended attempts own outputs, and shows no new outputs but those of a completion |
| `Unguarded.BehaviorsAreFree` | `src/qhpc_ecosystem/engine.py:2372-2425` | Histories with guarded retries are among these |
| `World.WorldStepMeans` | `src/qhpc_ecosystem/engine.py:2042-2141` | Every step of engine and workers keeps "recorded outputs and handed-out requests mean what the graph says" |
| `World.ParentsMean` | `src/qhpc_ecosystem/engine.py:1661-1675` | Once all parents succeeded, the request assembled from their rows is the request of the evaluation |
| `World.BuiltMeans` | `src/qhpc_ecosystem/engine.py:1637-1719` | A request built for an attempt, under whatever lease, carries the meanings of the node's parents, is typed, and leaves no required port empty where edges use required outputs and the inputs feeding required ports were supplied |
| `World.BuildsOnlyWhenReady` | `src/qhpc_ecosystem/engine.py:1661-1675` | A request whose lookups all succeed is one whose parents all succeeded, with or without a current lease |
| `World.CompletionMeans` | `src/qhpc_ecosystem/engine.py:2042-2141` | Completing with what the runner makes of a request built for that attempt records the node's meaning |
| `World.OnlyCompletionSucceeds` | `src/qhpc_ecosystem/engine.py:2113-2131` | No step but a completion that passes all its checks makes a task succeed or changes the outputs of a succeeded one |
| `Workflows.RequestTyped` | `src/qhpc_ecosystem/engine.py:1656-1675` | On an accepted workflow, typed inputs and typed parent outputs fill only declared ports, each with its declared type |
| `Workflows.RequestFillsRequired` | `src/qhpc_ecosystem/engine.py:1656-1675` | When each edge delivers and each input feeding a required port is supplied, no required port is left empty |
| `Workflows.LastEdgeWins` | `src/qhpc_ecosystem/engine.py:1661-1675` | The last edge into a port decides what the port holds |
| `Workflows.LastInputWins` | `src/qhpc_ecosystem/engine.py:1656-1660` | The last supplied input naming a port decides what the inputs put there |
| `Workflows.InputHoldsIff` | `src/qhpc_ecosystem/engine.py:1656-1675` | A supplied input is what its port holds if and only if no edge feeds the port and no later supplied input names it (values being different) |
| `Witness.SingleArtifactPortIsShared` | `src/qhpc_ecosystem/workflow.py:168-182` | An accepted plan in which an edge and two inputs name one single-artifact port, and the edge wins |
| `Workflows.InvocationFits` | `src/qhpc_ecosystem/engine.py:1677-1682` | A node of an accepted workflow is asked to run with every required parameter, nothing undeclared, all of the declared types and choices, and with what the document supplies, within its bounds |
| `Parameters.MergedFit` | `src/qhpc_ecosystem/engine.py:1677-1682` | Defaults overridden by fitting parameters are declared, typed and chosen, with every required one present |
| `Parameters.MergedFitIff` | `src/qhpc_ecosystem/contract.py:138-175` | All parameters of a request fit if and only if each default left in place is within its bounds, which publication does not check |
| `Parameters.DefaultOutOfBounds` | `src/qhpc_ecosystem/contract.py:138-175` | A declaration that publication accepts whose default is out of bounds and reaches a request |
| `Parameters.NoProblemMeansFit` | `src/qhpc_ecosystem/workflow.py:83-109` | A node's parameters have no problem if and only if they fit the declaration |
| `Parameters.ValueProblems` | `src/qhpc_ecosystem/workflow.py:96-109` | One supplied value: mistyped, or not among the choices, below or above the bounds, or not comparable with them; nothing else |
| `Parameters.FitsIff` | `src/qhpc_ecosystem/workflow.py:96-109` | What fits, value by value: a boolean is no number but counts as 0 or 1 against bounds, a whole number is a number too, a text fits no bounds |
| `Parameters.SameIff` | `src/qhpc_ecosystem/workflow.py:104-105` | Choices are compared by an equivalence that identifies equal numbers of every form, and nothing else |
| `Parameters.DeclaredProblems` | `src/qhpc_ecosystem/workflow.py:86-109` | One declared parameter: missing, or the problems of the value supplied for it |
| `Parameters.ParameterProblems` | `src/qhpc_ecosystem/workflow.py:83-109` | Exactly the problems of the node's parameters |
| `Parameters.MergedIs` | `src/qhpc_ecosystem/engine.py:1677-1682` | A request carries what the node supplies, and otherwise the declared default where there is one |
| `World.RequestIsTyped` | `src/qhpc_ecosystem/engine.py:1656-1675` | In a sound store the request of a ready task is typed by its operation's input ports |
| `World.RequestIsFull` | `src/qhpc_ecosystem/workflow.py:199-207` | If edges use required outputs only and the inputs feeding required ports are supplied, the request of a ready task builds and fills every required port |
| `History.RequestsGoRight` | `src/qhpc_ecosystem/engine.py:1637-1719` | Every request ever built in a run, also one read after its lease lapsed, carries the meanings of the node's parents, is typed, and leaves no required port empty where edges use required outputs and the inputs feeding required ports were supplied |
| `RunControl.SubmitTypesInputs` | `src/qhpc_ecosystem/engine.py:897-904` | Inputs that `submit_run` accepts exist and have the declared types |
| `Graph.AcyclicIffNoCycle` | `src/qhpc_ecosystem/contract.py:348-361` | A finite graph in which every nonempty set of nodes has a source is exactly one without a cycle |
| `Ordering.Tables` | `src/qhpc_ecosystem/contract.py:306-329` | The adjacency sets are the edges between known, distinct nodes, and each in-degree counts distinct predecessors once |
| `Ordering.AcyclicAfter` | `src/qhpc_ecosystem/contract.py:351-357` | Taking a ready node neither adds nor removes a cycle |
| `Ordering.StuckIsCyclic` | `src/qhpc_ecosystem/contract.py:358-361` | Nodes left when nothing is ready contain a cycle |
| `Ordering.ReleaseAny` | `src/qhpc_ecosystem/contract.py:354-357` | Decrementing the targets in any order makes ready exactly those that lost their last predecessor |
| `Ordering.FindsCycle` | `src/qhpc_ecosystem/contract.py:348-361` | The check reports a cycle if and only if the graph of known, non-self edges has one, whatever order ready nodes are taken in |
| `Ordering.Release` | `src/qhpc_ecosystem/workflow.py:230-234` | The inner loop keeps `ready` sorted and adds exactly the targets that lost their last predecessor |
| `Ordering.TakeInOrder` | `src/qhpc_ecosystem/workflow.py:227-235` | The outer loop lists the nodes as repeatedly taking the least source of what is left |
| `Ordering.TopologicalNodes` | `src/qhpc_ecosystem/workflow.py:214-235` | On an accepted workflow: every node once, every edge forward, no other such order smaller where they first differ, and a function of the sets of nodes and edges only |
| `Ordering.OrderIsLeast` | `src/qhpc_ecosystem/workflow.py:214-235` | The order that is computed is topological and least among the topological orders |
| `Resolution.DistinctByCount` | `src/qhpc_ecosystem/contract.py:304-306` | Counting distinct ids against the list decides whether an id repeats |
| `Resolution.EdgeIssues` | `src/qhpc_ecosystem/contract.py:310-325` | An issue is raised for an edge exactly when an end is unknown, the types differ, or it is a self-edge |
| `Resolution.EndpointIssues` | `src/qhpc_ecosystem/contract.py:331-346` | An issue is raised for an input or output exactly when its node is unknown |
| `Resolution.NoIssueMeansContract` | `src/qhpc_ecosystem/contract.py:301-362` | A document has no issue if and only if ids are distinct, edges lawful, ends known and the graph acyclic |
| `Resolution.ValidateWorkflow` | `src/qhpc_ecosystem/contract.py:301-362` | The issues raised are exactly the violations, and none is raised exactly when the contract holds |
| `Resolution.ResolveNodes` | `src/qhpc_ecosystem/workflow.py:44-117` | Nodes resolve to the first offered operation with their id; unknown, deprecated and unsupported ones and every problem with a parameter are reported, and nothing else |
| `Resolution.OfferedIsFirst` | `src/qhpc_ecosystem/workflow.py:57-73` | The operation of a node is the first of its name in the version asked for |
| `Resolution.AcceptedPorts` | `src/qhpc_ecosystem/workflow.py:120-211` | In an accepted plan edges join ports of one type, two end in one port only where it takes several artifacts, and what is required is fed |
| `Resolution.EdgePortIssues` | `src/qhpc_ecosystem/workflow.py:132-166` | Missing ports, differing types and a second edge into a single-artifact port are reported, and nothing else; every fed port is counted |
| `Resolution.InputPortIssues` | `src/qhpc_ecosystem/workflow.py:168-182` | Missing ports and differing types are reported, and a port counts as fed exactly when an edge or an input names it |
| `Resolution.OutputPortIssues` | `src/qhpc_ecosystem/workflow.py:184-197` | Missing ports and differing types of workflow outputs are reported, and nothing else |
| `Resolution.UnconnectedIssues` | `src/qhpc_ecosystem/workflow.py:199-207` | A required port is reported exactly when nothing feeds it |
| `Resolution.NoRefusalMeansPorts` | `src/qhpc_ecosystem/workflow.py:120-211` | Nothing is reported if and only if every operation is offered and current, every node's parameters fit and every port fits |
| `Resolution.ResolveWorkflow` | `src/qhpc_ecosystem/workflow.py:120-211` | A plan comes out exactly when the contract holds, operations are offered, parameters and ports fit; from a well-formed document it is an accepted plan |
| `Protocol.StepMoves` | `src/qhpc_ecosystem/engine.py:1298-2425` | Every transaction is one of five shapes: it rewrites one task with its latest attempt, adds a run, cancels a run, resets a closed set of nodes, or leaves rows alone |
| `Protocol.MovesKeepInv` | `src/qhpc_ecosystem/engine.py:1298-2425` | Every step keeps the master invariant: at most one live attempt per task and it is the latest, attempts numbered without gap, a running task and its attempt under one token, tokens unshared, nothing running or succeeded before its parents succeeded, a run succeeded if and only if all its tasks are |
| `Protocol.MovesKeepPlans` | `src/qhpc_ecosystem/engine.py:540-577` | Stored plans, and the plans of runs, stay accepted ones |
| `Frame.MovedKeeps` | `src/qhpc_ecosystem/engine.py:1298-1621` | A step about one task keeps the invariant of all the others |
| `Invariant.HeldIsCurrent` | `src/qhpc_ecosystem/engine.py:1721-1743` | A lease that passes `_assert_lease` names the latest attempt of its task, and that attempt is live |
| `Invariant.CloserIsCurrent` | `src/qhpc_ecosystem/engine.py:2055-2067` | A lease that may complete or fail a task names its latest attempt |
| `Invariant.RecoverableIsCurrent` | `src/qhpc_ecosystem/engine.py:1440-1457` | What the recovery query selects is the latest attempt of its task |
| `Invariant.UnderLeaseMoves` | `src/qhpc_ecosystem/engine.py:1745-2040` | Renewal, stages, submission, status, release and cancellation under a lease are sound steps of that task |
| `Invariant.ExpireMoves` | `src/qhpc_ecosystem/engine.py:1298-1408` | Expiring a row is a sound step of that task |
| `Invariant.ClaimRecoveredMoves` | `src/qhpc_ecosystem/engine.py:1477-1520` | Recovering an attempt is a sound step of its task |
| `Invariant.ClaimFreshMoves` | `src/qhpc_ecosystem/engine.py:1565-1620` | Leasing a fresh attempt is a sound step of its task |
| `Invariant.CompleteMoves` | `src/qhpc_ecosystem/engine.py:2042-2141` | Completing is a sound step of its task, and finishes the run when it was the last one |
| `Invariant.FailMoves` | `src/qhpc_ecosystem/engine.py:2143-2203` | Failing is a sound step of its task |
| `Store.NewTasks` | `src/qhpc_ecosystem/engine.py:933-967` | A submitted run has exactly one task per node, all pending, untried, unheld and without outputs |
| `RunControl.SubmitAdds` | `src/qhpc_ecosystem/engine.py:865-968` | An accepted submission adds one queued run with those tasks, and touches nothing else |
| `RunControl.CancelsKeep` | `src/qhpc_ecosystem/engine.py:2303-2370` | Cancelling a run keeps the master invariant |
| `RunControl.DownstreamCloses` | `src/qhpc_ecosystem/engine.py:2385-2395` | The reset set contains the node and is closed under edges |
| `RunControl.DownstreamIsLeast` | `src/qhpc_ecosystem/engine.py:2385-2395` | Every set that contains the node and is closed under edges contains the reset set |
| `RunControl.RetryResets` | `src/qhpc_ecosystem/engine.py:2372-2425` | A retry resets the node and everything reachable from it, and no other task |
| `RunControl.RetryKeepsIff` | `src/qhpc_ecosystem/engine.py:2372-2425` | An unguarded retry keeps the invariant if and only if no reset node has a live attempt and nothing in the run is being canceled |
| `Witness.RetryOfRunningBreaks` | `src/qhpc_ecosystem/engine.py:2372-2425` | On a concrete store, retrying a running task leaves its attempt live under a pending task: without the guard the invariant is lost |
| `Witness.SomethingSucceeds` | `src/qhpc_ecosystem/engine.py:533-578` | A concrete history from the empty store registers, submits, claims, requests and completes, and ends with the run succeeded: the statements about histories are not empty |
| `RunControl.FailedResetIdle` | `src/qhpc_ecosystem/engine.py:2372-2425` | A failed node has no live attempt on itself or downstream, so the first half of that guard holds by itself |
| `World.StepKeepsSound` | `src/qhpc_ecosystem/engine.py:1298-2425` | Every step keeps the invariant, the plans, the ledger, the typing of artifacts and the outputs of finished runs |
| `History.ReachableSound` | `src/qhpc_ecosystem/engine.py:1298-2425` | All of that holds in every reachable state |
| `Protocol.MovesFence` | `src/qhpc_ecosystem/engine.py:1721-1743` | An issued token that is on no row never comes back to one |
| `Protocol.MovesFreeze` | `src/qhpc_ecosystem/engine.py:2055-2067` | No step removes an attempt or changes one that is succeeded, failed, canceled or abandoned |
| `Protocol.MovesFixRuns` | `src/qhpc_ecosystem/engine.py:906-925` | No step changes a run's plan or inputs |
| `History.EndedAttemptsNeverChange` | `src/qhpc_ecosystem/engine.py:2157-2167` | An ended attempt is the same in every later state |
| `History.StaleTokensAreRefused` | `src/qhpc_ecosystem/engine.py:1721-1743` | Once an issued token is off its attempt, every operation, completion or failure with it writes nothing, at any later time |
| `History.LaterEvolves` | `src/qhpc_ecosystem/engine.py:1041-1095` | Between any two moments: runs fixed, history frozen, tokens fenced, artifacts kept, log only extended |
| `Ledger.MovesKeepLedger` | `src/qhpc_ecosystem/engine.py:1041-1095` | Per node, fresh `task.leased` events number the attempt counter; each attempt has its one terminal event if and only if it is terminal, of the kind of its end |
| `Outcomes.RunningIsNotStranded` | `src/qhpc_ecosystem/engine.py:1440-1457` | The live attempt of a running task is held under the task's own token and expiry, or the recovery query selects it |
| `Outcomes.ExpiryKeepsOrAbandons` | `src/qhpc_ecosystem/engine.py:1348-1408` | Expiry keeps an attempt with a handle or a submission intent, and otherwise abandons it and makes the task pending |
| `Outcomes.LapsedRunningReturns` | `src/qhpc_ecosystem/engine.py:1298-1408` | After its lease lapsed, a running task of an open run is recoverable or claimable afresh |
| `Recovery.ResetAt` | `src/qhpc_ecosystem/engine.py:1319-1408` | Expiring a batch of rows does to each listed row what expiring it alone does |
| `Recovery.ResetElsewhere` | `src/qhpc_ecosystem/engine.py:1319-1408` | Expiring a batch leaves every row not listed alone |
| `Recovery.LapsedRunIsServed` | `src/qhpc_ecosystem/engine.py:1426-1457` | Once leases lapsed, an open run with a running task has something an unrestricted claim returns |
| `Recovery.LapsedIsStrandedIff` | `src/qhpc_ecosystem/engine.py:1319-1347` | A live attempt whose lease lapsed is out of reach of expiry and recovery if and only if its task was canceled over it without a cancel request |
| `Stranding.StrandedIsUnreachable` | `src/qhpc_ecosystem/engine.py:1319-1347` | An attempt being submitted whose task was canceled is selected by no expiry and no recovery, whatever the clock says |
| `Stranding.StepLeavesStranded` | `src/qhpc_ecosystem/engine.py:1298-2425` | Such an attempt stays so through a step if and only if the step is not its own holder recording the submission or giving it up |
| `Stranding.StrandedUntilHolderActs` | `src/qhpc_ecosystem/engine.py:1298-1457` | So over every history of the engine: until its holder acts it stays stranded, and no expiry and no recovery selects it |
| `Stranding.OrphanedForGood` | `src/qhpc_ecosystem/worker.py:329-411` | When no worker of the cluster holds its lease any more, it is stranded in every continuation of the history (the protocol's retries spare live attempts), no worker ever holds it again, and its jobs stay with the scheduler |
| `Races.CanceledWhileSubmittingOrphans` | `src/qhpc_ecosystem/engine.py:2314-2340` | A history from the empty cluster that gets there with a job: the holder submits, the run is canceled, and the holder dies before it records the handle |
| `Races.RequestExpiresIff` | `src/qhpc_ecosystem/engine.py:1319-1347` | An attempt asked to cancel is ended as canceled by expiry if and only if a lease of it lapsed before it had a handle |
| `Races.CanceledAttemptGetsJob` | `src/qhpc_ecosystem/engine.py:1905-1928` | A history in which a job is made for an attempt that has ended as canceled: the request arrives before the intent, which lets it pass, and the lease lapses before `sbatch` |
| `Outcomes.OpenRunProgresses` | `src/qhpc_ecosystem/engine.py:1553-1564` | An open run with an unfinished task and no failed or canceled one has a running or a claimable task |
| `Outcomes.MovesKeepOutcomes` | `src/qhpc_ecosystem/engine.py:2223-2253` | A succeeded run's outputs stay the mapped outputs of its tasks |
| `Outcomes.RunOutputsAreTaskOutputs` | `src/qhpc_ecosystem/engine.py:2243-2253` | Each named output of a finished run is the artifact its task recorded on that port |
| `History.RunOutputsMean` | `src/qhpc_ecosystem/engine.py:2223-2253` | In every reachable state, each named output of a succeeded run is the meaning of its node at its port |
| `Idle.ResetRelaxes` | `src/qhpc_ecosystem/engine.py:1298-1408` | Where nothing canceled is in flight, expiry only takes leases and makes running tasks wait again; the store stays sound |
| `Idle.ResetFrees` | `src/qhpc_ecosystem/engine.py:1298-1408` | Once every lease has lapsed, expiry leaves nothing held |
| `Idle.TakenRequestBuilds` | `src/qhpc_ecosystem/engine.py:1661-1675` | The request of a task just claimed, fresh or recovered, builds when succeeded tasks delivered all declared outputs |
| `Idle.TakenCompletes` | `src/qhpc_ecosystem/engine.py:2042-2141` | A delivery of all declared ports is accepted for a task just claimed, fresh or recovered, also when it finishes the run |
| `Idle.CompletionDoesOne` | `src/qhpc_ecosystem/engine.py:2283-2301` | One completion later nothing is held, exactly that task is no longer unfinished, and ended runs are as they were |
| `Idle.RunningIsRecoverable` | `src/qhpc_ecosystem/engine.py:1440-1457` | Where nothing is held, the attempt of a running task can be recovered |
| `Idle.NothingLeft` | `src/qhpc_ecosystem/engine.py:1522-1564` | With nothing held, recoverable or claimable, every open run shows a failed or canceled task |
| `Idle.HealthySucceeded` | `src/qhpc_ecosystem/engine.py:2223-2253` | Then every run that was open with nothing failed or canceled has succeeded with all its tasks |
| `Idle.WorkDone` | `src/qhpc_ecosystem/engine.py:2283-2301` | The unfinished tasks that are gone are those that succeeded |
| `Idle.SubmitAddsHealthy` | `src/qhpc_ecosystem/engine.py:865-968` | A submission adds an open run with nothing failed, puts nothing in flight and leaves such runs such |
| `Idle.EndedIsCalm` | `src/qhpc_ecosystem/engine.py:2283-2301` | A sound store in which every attempt has ended has nothing held and nothing canceled in flight |
| `Transactions.TakenIsExecuted` | `src/qhpc_ecosystem/engine.py:2276-2280` | Executing what was just claimed, fresh or recovered, completes it |
| `Transactions.IdleRound` | `src/qhpc_ecosystem/engine.py:2292-2301` | One round of the loop after leases lapsed does exactly one unfinished task, or finds nothing left that could be done |
| `Transactions.CanceledIsServedAgain` | `src/qhpc_ecosystem/engine.py:1440-1457` | Why nothing canceled may be in flight: executing an attempt that was asked to cancel changes nothing, and once its lease lapsed it is recovered again |
| `Cancellation.CancelTakesEffect` | `src/qhpc_ecosystem/engine.py:2314-2369` | A cancellation marks every listed attempt, and the former holder of one with a handle can write nothing more |
| `Cancellation.MovesStayCanceled` | `src/qhpc_ecosystem/engine.py:1320-1347` | No step but a retry of it revives a canceled run |
| `Cancellation.CancellationIsFinal` | `src/qhpc_ecosystem/engine.py:2303-2370` | Until a retry, a canceled run stays canceled, none of its tasks becomes pending, running or succeeded, no attempt or artifact is added, and `cancel_requested` turns only into canceled |
| `Engine.WorkflowEngine.constructor` | `src/qhpc_ecosystem/engine.py:144-150` | A new engine has an empty, sound store |
| `Engine.WorkflowEngine.RegisterWorkflow` | `src/qhpc_ecosystem/engine.py:533-578` | A workflow is taken exactly when it is acceptable and no other definition is stored under its version; every node of a newly stored plan has the operation the registry offers it; stored versions never change |
| `Engine.WorkflowEngine.RegisterArtifact` | `src/qhpc_ecosystem/engine.py:420-462` | A new input artifact is stored, an existing one kept |
| `Engine.WorkflowEngine.InputsFit` | `src/qhpc_ecosystem/engine.py:886-904` | True exactly when no input is unknown, none required is missing, and each exists with the declared type |
| `Engine.WorkflowEngine.InsertTasks` | `src/qhpc_ecosystem/engine.py:933-967` | One row per node, numbered by its place in the topological order; refused exactly when some operation does not support its target |
| `Engine.WorkflowEngine.SubmitRun` | `src/qhpc_ecosystem/engine.py:865-968` | Accepted exactly when no input is unknown, no required one is missing, each exists with the declared type, and each node's own target or else the run's is one its operation supports; then the run is queued with its inputs, and each node's row is pending, carries the node's own target and class where it has them and the defaults otherwise, and is numbered after the rows of its parents; otherwise nothing is written |
| `Transactions.TargetFound` | `src/qhpc_ecosystem/engine.py:933-937` | A node's target is its own when it has one and the run's otherwise |
| `Transactions.ClassFound` | `src/qhpc_ecosystem/engine.py:960-962` | A node's class is its own when it has one and the default otherwise |
| `Transactions.SubmittableRaw` | `src/qhpc_ecosystem/engine.py:886-939` | What has to hold of inputs and targets for a submission to raise nothing, said of the document and the rows |
| `Transactions.SubmitWrites` | `src/qhpc_ecosystem/engine.py:932-967` | The task rows a submission writes: one per node, field by field, and no other |
| `Transactions.SubmitOrders` | `src/qhpc_ecosystem/engine.py:933-949` | The rows of a new run are numbered along its edges |
| `Engine.WorkflowEngine.RenewLease` | `src/qhpc_ecosystem/engine.py:1745-1776` | Under a current lease the expiry becomes now plus the seconds in the attempt and, under the same token, in the task; nothing else changes, and otherwise nothing does |
| `Engine.WorkflowEngine.RecordStage` | `src/qhpc_ecosystem/engine.py:1778-1801` | Under a current lease one event is added; otherwise nothing changes |
| `Engine.WorkflowEngine.MarkSubmitting` | `src/qhpc_ecosystem/engine.py:1905-1928` | A leased attempt becomes submitting and logs its intent once; a cancel request is left standing; later states raise |
| `Transactions.IntentWrites` | `src/qhpc_ecosystem/engine.py:1905-1928` | Declaring the intent is refused in later states, and writes once, to an attempt that was just leased; nothing else of the store changes |
| `Engine.WorkflowEngine.RecordSubmission` | `src/qhpc_ecosystem/engine.py:1840-1900` | The handle is recorded; the attempt is running, collecting or submitted as the target says, unless a cancel request came first, which is not overwritten |
| `Transactions.SubmissionWrites` | `src/qhpc_ecosystem/engine.py:1859-1900` | The handle, and the state that the target's state stands for unless the attempt was asked to cancel, are written to the attempt, and one event; nothing else of the store changes |
| `Engine.WorkflowEngine.RecordTargetStatus` | `src/qhpc_ecosystem/engine.py:1930-1981` | The attempt is submitted, running or collecting as reported, and stays as it was under any other report |
| `Engine.WorkflowEngine.ReleaseLease` | `src/qhpc_ecosystem/engine.py:1983-2001` | The token leaves the attempt, and the task if it carries the same one |
| `Engine.WorkflowEngine.MarkAttemptCanceled` | `src/qhpc_ecosystem/engine.py:2003-2040` | The attempt is canceled and its task row overwritten |
| `Engine.WorkflowEngine.ExpireLease` | `src/qhpc_ecosystem/engine.py:1319-1408` | One expired row: of a canceled run and without a handle, the attempt is canceled; with a handle or a declared intent it only loses its lease; otherwise it is abandoned and the task pending again |
| `Engine.WorkflowEngine.ResetExpiredLeases` | `src/qhpc_ecosystem/engine.py:1298-1408` | Every row whose task or attempt lease lapsed, and which is running or asked to cancel, is reset once, in whatever order the query returns them |
| `Engine.WorkflowEngine.FindRecoverable` | `src/qhpc_ecosystem/engine.py:1440-1476` | An attempt that was left behind, of a task inside both filters, that sorts first: cancel requests, then start time, then sequence; none only if there is none |
| `Engine.WorkflowEngine.FindClaimable` | `src/qhpc_ecosystem/engine.py:1522-1564` | A task that can start, inside both filters, that sorts first by run creation and sequence; none only if there is none |
| `Engine.WorkflowEngine.LeaseRecovered` | `src/qhpc_ecosystem/engine.py:1477-1520` | Attempt and task carry a fresh token for the worker; state and handle stay |
| `Engine.WorkflowEngine.LeaseFresh` | `src/qhpc_ecosystem/engine.py:1565-1620` | The task runs under a fresh token with its counter raised by one, and the attempt of that number is leased |
| `Engine.WorkflowEngine.ClaimTask` | `src/qhpc_ecosystem/engine.py:1426-1621` | After expiry: the task leased is inside both filters; a fresh one is leased only when every attempt left behind is outside a filter, and nothing only when every task that can start is too; no admitted attempt left behind sorts before a recovered one, and no admitted task that can start belongs to an earlier run, or comes earlier in one created at the same instant, than a fresh one; attempt and task carry a new token of the worker that expires after the seconds asked |
| `Transactions.LeftBehindRecovers` | `src/qhpc_ecosystem/engine.py:1440-1457` | What the recovery query selects is an attempt nobody holds: with a handle and submitted, running, collecting or asked to cancel, or without one and submitting |
| `Transactions.CanStartIsClaimable` | `src/qhpc_ecosystem/engine.py:1522-1536` | What may be leased afresh is a pending task of a queued or running run all of whose parents, edge by edge, have succeeded |
| `Transactions.RecoveryServed` | `src/qhpc_ecosystem/engine.py:1440-1476` | A recovery takes an admitted attempt before which none sorts |
| `Transactions.FreshServed` | `src/qhpc_ecosystem/engine.py:1522-1564` | A fresh claim takes an admitted task before which none sorts, and no admitted attempt was left behind |
| `Transactions.NoneLeftBehind` | `src/qhpc_ecosystem/engine.py:1440-1476` | When no attempt is recovered, every attempt left behind is outside a filter |
| `Transactions.NoneCanStart` | `src/qhpc_ecosystem/engine.py:1522-1564` | When nothing is leased afresh, every task that can start is outside a filter |
| `Engine.WorkflowEngine.InputArtifacts` | `src/qhpc_ecosystem/engine.py:1656-1660` | Exactly the supplied workflow inputs that reach the node, on their ports |
| `Engine.WorkflowEngine.BuildRequest` | `src/qhpc_ecosystem/engine.py:1637-1675` | The request the specification assembles, or none exactly when a parent did not produce an output that an edge uses |
| `Transactions.RequestBuildsIff` | `src/qhpc_ecosystem/engine.py:1661-1675` | A request builds exactly when every edge into the node finds its port among what the parent recorded |
| `Transactions.RequestReads` | `src/qhpc_ecosystem/engine.py:1656-1675` | Each port of a request holds the artifact that the parent of the last edge into it recorded, or else that of the last supplied input naming it; a port nothing feeds is empty |
| `Engine.WorkflowEngine.TaskRequest` | `src/qhpc_ecosystem/engine.py:1715-1719` | The same, and none under a lease that is not current; a request read after the check, under a lease that lapsed, is covered by `World.BuildsOnlyWhenReady` |
| `Engine.WorkflowEngine.StoreOutputs` | `src/qhpc_ecosystem/engine.py:2084-2112` | Succeeds exactly when every output has its declared type, and then stores one artifact per output under the attempt |
| `Engine.WorkflowEngine.CollectRunOutputs` | `src/qhpc_ecosystem/engine.py:2243-2249` | The mapped outputs, or none exactly when one is missing |
| `Engine.WorkflowEngine.FinishRunIfTerminal` | `src/qhpc_ecosystem/engine.py:2223-2253` | The run rows a completion leaves, or none exactly when all tasks succeeded and a mapped output is missing |
| `Engine.WorkflowEngine.CompleteTask` | `src/qhpc_ecosystem/engine.py:2042-2141` | Completes as specified, finishing the run if it was the last task; any failed check, and a task already succeeded, leaves the store as it was |
| `Transactions.CompletesIff` | `src/qhpc_ecosystem/engine.py:2053-2103` | A completion is taken exactly when the task runs under the lease's token, every required output is there, none is undeclared or of another type, and, if all other tasks have succeeded, every mapped output of the run was produced |
| `Transactions.CompletionWrites` | `src/qhpc_ecosystem/engine.py:2084-2140` | It writes one artifact per output under the attempt, refers to them from task and attempt, ends both leases and logs one event, and leaves all other rows alone |
| `Transactions.CompletionEndsRun` | `src/qhpc_ecosystem/engine.py:2223-2253` | The run is left alone until its last task; then it has succeeded, and each named output is what the last entry of that name maps it to |
| `Engine.WorkflowEngine.FailTask` | `src/qhpc_ecosystem/engine.py:2143-2203` | Under a current token of a running task: task, attempt and run are failed, both leases are gone and one event is logged; otherwise nothing changes |
| `Failure.FailureTakesEffect` | `src/qhpc_ecosystem/engine.py:2157-2203` | An accepted failure fails the attempt, its task and its run |
| `Failure.StepStaysFailed` | `src/qhpc_ecosystem/engine.py:1522-1536` | No transaction but a retry of that run revives a failed run: it stays failed, no task of it can be claimed, and no attempt of it is added |
| `Failure.FailureIsFinal` | `src/qhpc_ecosystem/engine.py:2143-2203` | So over every history of the engine, from an accepted failure until a retry of the run |
| `Failure.ClusterFailureIsFinal` | `src/qhpc_ecosystem/engine.py:2143-2203` | And over every history of the cluster, whatever workers, crashes, disk and scheduler do |
| `Engine.WorkflowEngine.AskToCancel` | `src/qhpc_ecosystem/engine.py:2322-2357` | One attempt is asked to cancel, loses its token if it has a handle, and one event is logged |
| `Engine.WorkflowEngine.CancelAttempts` | `src/qhpc_ecosystem/engine.py:2314-2357` | Every active attempt of the run, and no other, is marked once; one with a handle loses its token |
| `Engine.WorkflowEngine.CancelRun` | `src/qhpc_ecosystem/engine.py:2303-2370` | The run is canceled, its pending and running tasks are, each listed attempt is asked to cancel and loses its lease if it has a handle; everything else, and a run that has ended, is left alone |
| `Transactions.CancelWrites` | `src/qhpc_ecosystem/engine.py:2303-2370` | The rows a cancellation writes, for each task and each attempt by the state it is in |
| `Engine.WorkflowEngine.LogRetries` | `src/qhpc_ecosystem/engine.py:2405-2420` | One event per reset node, in sorted order |
| `Engine.WorkflowEngine.RetryTask` | `src/qhpc_ecosystem/engine.py:2372-2425` | Exactly the downstream nodes are reset, and the store stays sound when the guard holds |
| `Transactions.RetryWrites` | `src/qhpc_ecosystem/engine.py:2372-2425` | The rows a retry writes: the reset tasks are pending without lease and outputs, the run is queued without outputs, and nothing else changes but the log |
| `Transactions.Descendants` | `src/qhpc_ecosystem/engine.py:2385-2395` | The fixpoint loop ends with exactly the nodes reachable from the retried one |
| `Transactions.RankIsPlace` | `src/qhpc_ecosystem/engine.py:933-950` | The sequence number of a task is its node's place in the topological order |
| `Engine.WorkflowEngine.Execute` | `src/qhpc_ecosystem/engine.py:2276-2280` | Runs the request and completes; the task fails if the request, the runner or the completion raises |
| `Engine.WorkflowEngine.RunOnce` | `src/qhpc_ecosystem/engine.py:2255-2281` | Claims, executes what was claimed, and reports whether there was anything |
| `Engine.WorkflowEngine.RunUntilIdle` | `src/qhpc_ecosystem/engine.py:2283-2301` | From any sound store whose leases have lapsed and in which nothing canceled is in flight, with attempts a crash left behind, and with a total runner: stops; each completion finishes one task; every open run in which nothing had failed or been canceled has then succeeded with all its tasks; ended runs are unchanged |
| `ClusterSafety.AdvanceIsLawful` | `src/qhpc_ecosystem/worker.py:329-411` | Whatever a worker's program does next, its transaction keeps the engine's discipline: release only with a handle, report only without a cancel request, complete only with a result of its request |
| `ClusterSafety.ForeignKeepsRow` | `src/qhpc_ecosystem/engine.py:1721-1743` | What others do leaves a held attempt alone, except for asking it to cancel |
| `ClusterSafety.HandlesKept` | `src/qhpc_ecosystem/engine.py:1840-1900` | Only recording a submission gives an attempt a handle |
| `ClusterSafety.AdvanceKeepsInv` | `src/qhpc_ecosystem/worker.py:329-411` | Every statement of a worker, and every exception or crash instead of it, keeps the cluster invariant: what each worker holds is grounded in the rows, handles and receipts are jobs of their attempt, and leased or abandoned attempts have none |
| `ClusterSafety.AroundKeepsInv` | `src/qhpc_ecosystem/slurm_runner.py:656-665` | Users, unrestricted expiry, cleanup of receipts and new workers keep it too |
| `ClusterHistory.ReachableCluster` | `src/qhpc_ecosystem/worker.py:329-411` | The cluster invariant holds in every reachable state, whichever leases lapse when |
| `ClusterHistory.RecordsAreJobs` | `src/qhpc_ecosystem/slurm_runner.py:432-480` | In every reachable state a recorded handle and a receipt are jobs of their attempt, and a leased or abandoned attempt has no job |
| `ClusterHistory.ReachableOnce` | `src/qhpc_ecosystem/slurm_runner.py:448-566` | While no two workers were at `sbatch` for an attempt together, it has at most one job, and none while a worker is about to make one |
| `ClusterHistory.OneJobPerAttempt` | `src/qhpc_ecosystem/slurm_runner.py:448-566` | At most one scheduler job per attempt, through a crash at any point of claim, intent, lookup, submission, receipt and record, unless two workers were at `sbatch` for that attempt together |
| `ClusterHistory.RecordsAgree` | `src/qhpc_ecosystem/slurm_runner.py:432-446` | On the same condition the recorded handle and the receipt of an attempt are one |
| `ClusterHistory.SbatchKeepsOnceIff` | `src/qhpc_ecosystem/slurm_runner.py:469-551` | A worker that calls `sbatch` keeps jobs single if and only if its attempt has no job at that moment |
| `ClusterHistory.LookupSawNone` | `src/qhpc_ecosystem/slurm_runner.py:469-480` | A worker reaches `sbatch` only by a lookup that saw no job of its attempt |
| `ClusterHistory.StayedAtSbatch` | `src/qhpc_ecosystem/slurm_runner.py:469-551` | While a worker stays at `sbatch`, its attempt has a job after a step if and only if it had one before or the step is another worker's `sbatch` for it |
| `ClusterHistory.JobsAppearIff` | `src/qhpc_ecosystem/slurm_runner.py:469-551` | So over any stretch of a history: a job appears if and only if another worker's `sbatch` for the attempt went through |
| `ClusterHistory.SecondJobIff` | `src/qhpc_ecosystem/slurm_runner.py:469-551` | A worker's `sbatch` makes a second job if and only if another worker's `sbatch` for the attempt went through since its lookup |
| `Races.LapseMakesTwoJobs` | `src/qhpc_ecosystem/slurm_runner.py:469-566` | A history from the empty cluster that makes two jobs of one attempt: the lease lapses between lookup and `sbatch`, a second worker recovers the attempt, looks up and finds nothing, and both submit |
| `ClusterHistory.ClusterRefinesWorld` | `src/qhpc_ecosystem/worker.py:329-411` | Every history of workers, disk and scheduler projects onto a history of the engine model, moment by moment and in order |
| `ClusterHistory.ProjectedStep` | `src/qhpc_ecosystem/worker.py:329-411` | Every step of the projection is a step of the cluster between the same moments |
| `ClusterHistory.ClusterRefusesStaleTokens` | `src/qhpc_ecosystem/engine.py:1721-1743` | At every later moment of the cluster, a token that left its attempt is refused |
| `ClusterHistory.ClusterCancellationIsFinal` | `src/qhpc_ecosystem/engine.py:2303-2370` | Until a retry, a canceled run stays canceled whatever workers, crashes, disk and scheduler do |
| `ClusterHistory.ClusterKeepsMeaning` | `src/qhpc_ecosystem/worker.py:321-327` | Outputs recorded through jobs, receipts and recoveries are the workflow's meaning |
| `Workers.SlurmRunner.constructor` | `src/qhpc_ecosystem/slurm_runner.py:89-125` | No jobs and no receipts yet |
| `Workers.SlurmRunner.FindByName` | `src/qhpc_ecosystem/slurm.py:346-374` | A job of the attempt if there is one, none only if there is none |
| `Workers.SlurmRunner.Submit` | `src/qhpc_ecosystem/slurm_runner.py:448-566` | Returns exactly when the receipt or the job found by name can be queried, or staging, rendering and `sbatch` go through; makes a job exactly when the attempt has neither and `sbatch` accepts, also when its answer is lost; the answered job is one of the attempt and the receipt names it |
| `Workers.SlurmRunner.Collect` | `src/qhpc_ecosystem/slurm_runner.py:612-649` | What the attempt's own job left behind, only when the receipt names the handle |
| `Workers.SlurmRunner.Finalize` | `src/qhpc_ecosystem/slurm_runner.py:656-663` | Cleanup removes at most the attempt's own receipt |
| `Workers.AsyncWorker.constructor` | `src/qhpc_ecosystem/worker.py:230-274` | A worker starts on a consistent engine and runner |
| `Workers.AsyncWorker.FailAttempt` | `src/qhpc_ecosystem/worker.py:300-302` | The attempt fails, and the lease is off it unless the task was canceled |
| `Workers.AsyncWorker.CancelAttempt` | `src/qhpc_ecosystem/worker.py:304-319` | The attempt is canceled if its job could be, and otherwise released for another try; the lease is off it either way |
| `Workers.AsyncWorker.CollectAttempt` | `src/qhpc_ecosystem/worker.py:321-327` | The task is completed with what the attempt's own job computed exactly when that can be collected and the engine takes it, and fails otherwise |
| `Workers.AsyncWorker.FollowStatus` | `src/qhpc_ecosystem/worker.py:389-408` | Success is collected (and completes exactly when that goes through), failure and cancellation fail the task, anything else releases the lease |
| `Workers.AsyncWorker.SubmitAttempt` | `src/qhpc_ecosystem/worker.py:351-379` | The intent and then the handle are recorded exactly when submission returned; a cancel request that arrived meanwhile is honoured, otherwise the status is followed; where submission raised the task fails; at most one job is made, and only for an attempt without any |
| `Workers.AsyncWorker.PollAttempt` | `src/qhpc_ecosystem/worker.py:381-408` | The status is recorded and followed exactly when the receipt names the handle and the query goes through, and otherwise the task fails; no job is made |
| `Workers.AsyncWorker.Proceed` | `src/qhpc_ecosystem/worker.py:340-410` | A cancel request is answered, an attempt without handle is submitted, one with a handle is polled, each with its full outcome |
| `Workers.AsyncWorker.RunOnce` | `src/qhpc_ecosystem/worker.py:329-411` | What the round does to the store it claimed in, branch by branch; engine, receipts, jobs and handles stay consistent; at most one job is made, only for an attempt without any; the lease is let go unless building the request raised or the task was canceled over it |
| `Calls.HeldTask` | `src/qhpc_ecosystem/engine.py:2157-2167` | A held attempt belongs to a running task its lease may close, or to a canceled one |
| `Calls.RoundMeans` | `src/qhpc_ecosystem/worker.py:356-411` | What a round leaves in the rows of a running task: failed unless submitted or polled; a reported success is collected or fails, a reported end fails, and anything else waits without a lease in the state reported |
| `Calls.CancelMeans` | `src/qhpc_ecosystem/worker.py:342-352` | An attempt that was asked to cancel is canceled when it has no handle or its job could be canceled, and otherwise waits for another try |
| `Rounds.RoundIsProgram` | `src/qhpc_ecosystem/worker.py:340-411` | What a round promises after its claim is what some run of the worker's program in `Cluster` does, statement by statement: the same store, the same jobs, the worker idle |
| `Rounds.ClaimIsMove` | `src/qhpc_ecosystem/worker.py:330-338` | What a claim hands out is the lease of the program's claiming statement, with the same store |
| `Rounds.RunOnceIsProgram` | `src/qhpc_ecosystem/worker.py:329-411` | An undisturbed `run_once`, from its claim to its end, is a run of the worker's program |
| `Workers.StepAgrees` | `src/qhpc_ecosystem/engine.py:1840-1900` | Recorded handles stay jobs through every transaction that records none |
| `Pilots.StepAdvances` | `src/qhpc_ecosystem/pilot.py:209-250` | Every transaction moves pilots only forward through their lifecycle and keeps profile, capacity and expiry; releases are final |
| `Pilots.TakeConserves` | `src/qhpc_ecosystem/pilot.py:356-388` | Granting keeps counter, active reservations and event log equal, within capacity |
| `Pilots.ReleaseConserves` | `src/qhpc_ecosystem/pilot.py:396-430` | Releasing keeps them equal, and the clamp at zero is never reached |
| `Pilots.StepKeepsPool` | `src/qhpc_ecosystem/pilot.py:161-530` | Every transaction keeps `reserved` equal to the active reservations and to the net of the log, at most one active reservation per attempt, and active ones on ready or draining pilots only |
| `Pilots.CapacityIsConserved` | `src/qhpc_ecosystem/pilot.py:310-430` | That holds in every reachable store |
| `Pilots.LifecycleIsForward` | `src/qhpc_ecosystem/pilot.py:209-250` | Between any two moments pilots moved only forward |
| `Pilots.ReleaseIsIdempotent` | `src/qhpc_ecosystem/pilot.py:406-407` | A second release changes nothing |
| `Pilots.ReconciledIs` | `src/qhpc_ecosystem/pilot.py:457-503` | Reconciling judges each selected pilot once, on its own row, and leaves the others |
| `Pilots.ReconcileSettles` | `src/qhpc_ecosystem/pilot.py:457-503` | Afterwards no pilot of the profile id is ready while unhealthy, expiring or idle too long, and none drains while empty |
| `Pilots.ReconcileIsIdempotent` | `src/qhpc_ecosystem/pilot.py:457-503` | Reconciling again at the same instant changes nothing and logs nothing |
| `Pilots.EmptyMeansNone` | `src/qhpc_ecosystem/pilot.py:518-519` | The counter is zero exactly when no reservation of the pilot is active |
| `Pilots.PilotStore.constructor` | `src/qhpc_ecosystem/pilot.py:54-59` | A new store is empty and consistent |
| `Pilots.PilotStore.RequestAllocation` | `src/qhpc_ecosystem/pilot.py:161-207` | An active profile gets a requested pilot with its capacity and lifetime; an inactive one nothing |
| `Pilots.PilotStore.AssignSchedulerHandle` | `src/qhpc_ecosystem/pilot.py:209-231` | Only a requested or starting pilot takes a handle |
| `Pilots.PilotStore.BecomeReady` | `src/qhpc_ecosystem/pilot.py:233-250` | Only a submitted pilot becomes ready |
| `Pilots.PilotStore.Beat` | `src/qhpc_ecosystem/pilot.py:252-264` | Succeeds exactly for a ready or draining pilot, and records the heartbeat |
| `Pilots.PilotStore.SetDraining` | `src/qhpc_ecosystem/pilot.py:438-455` | A pilot that drains or is done is left alone |
| `Pilots.PilotStore.StartDraining` | `src/qhpc_ecosystem/pilot.py:432-436` | The same for a known pilot |
| `Pilots.PilotStore.JudgePilot` | `src/qhpc_ecosystem/pilot.py:472-503` | A ready pilot that is unheard of, expiring, or idle without reservations drains; what drains without reservations is asked to terminate; nothing else of it changes |
| `Pilots.PilotStore.Reconcile` | `src/qhpc_ecosystem/pilot.py:457-503` | Every selected pilot is judged once, in whatever order, and the profile is settled afterwards |
| `Pilots.PilotStore.FindUsable` | `src/qhpc_ecosystem/pilot.py:334-355` | The first usable pilot by readiness and id; none only if there is none |
| `Pilots.PilotStore.Reserve` | `src/qhpc_ecosystem/pilot.py:310-394` | A pilot is granted only if it was allocated for exactly this profile, ready with room, heard of within the health timeout, with more than the drain margin left and not idle for too long; no such pilot was ready earlier, or at the same instant with a lower id; no ready capacity is answered only if there is none; refusals before that are for target, operation, runtime or limits, in that order; an exception rolls the reconciliation back, a decision commits it; the guarded update cannot miss |
| `Pilots.ServesIff` | `src/qhpc_ecosystem/pilot.py:332-355` | The query after reconciling selects exactly the pilots that could serve before it |
| `Pilots.ChosenServes` | `src/qhpc_ecosystem/pilot.py:334-355` | The pilot taken could serve, is ready with room after reconciling, and no pilot that could serve comes before it |
| `Pilots.AllowedIff` | `src/qhpc_ecosystem/pilot.py:274-322` | No reason is given exactly for a request of the profile's target, operations and runtimes within its limits, and the first that applies is the one given |
| `Pilots.PilotStore.TakeRow` | `src/qhpc_ecosystem/pilot.py:356-388` | One more unit of the pilot is reserved for the attempt, and the pilot was active now |
| `Pilots.PilotStore.GiveBack` | `src/qhpc_ecosystem/pilot.py:396-430` | Gives exactly one unit back, once, and the pilot was active now |
| `Pilots.PilotStore.TerminateRow` | `src/qhpc_ecosystem/pilot.py:512-529` | A pilot without reservations is terminated, any other left alone |
| `Pilots.PilotStore.Terminate` | `src/qhpc_ecosystem/pilot.py:512-530` | Succeeds exactly when the pilot has no active reservation |
| `Knowledge.TreeWalks` | `src/qhpc_ecosystem/knowledge.py:534-550` | The table of predecessors spells a walk from the source to every found node |
| `Knowledge.ExploredWalks` | `src/qhpc_ecosystem/knowledge.py:524-535` | No walk through explored nodes comes before the path found to its end, by length and then lexicographically |
| `Knowledge.ReachedFirst` | `src/qhpc_ecosystem/knowledge.py:524-529` | When the search reaches its target, the path found comes before or is every walk to it |
| `Knowledge.ExhaustedFindsAll` | `src/qhpc_ecosystem/knowledge.py:524-544` | An exhausted search found everything connected to the source |
| `Knowledge.Expand` | `src/qhpc_ecosystem/knowledge.py:528-535` | Looking at the sorted neighbours of the head keeps the search in order of paths |
| `Knowledge.FollowBack` | `src/qhpc_ecosystem/knowledge.py:545-550` | Following predecessors back gives the path of the target |
| `Knowledge.ShortestPath` | `src/qhpc_ecosystem/knowledge.py:517-567` | Found if and only if some sequence of nodes from source to target has consecutive nodes that are the two ends of an edge, in either order; then no such sequence is shorter, and none as short is smaller where they first differ |
| `Knowledge.SortByDegree` | `src/qhpc_ecosystem/knowledge.py:499-502` | The neighbours by falling degree and then by name, each once |
| `Knowledge.LayerSeen` | `src/qhpc_ecosystem/knowledge.py:492-509` | When all nearer nodes are finished, the whole ball has been seen |
| `Knowledge.Spread` | `src/qhpc_ecosystem/knowledge.py:496-509` | Expanding a node stays within one layer, stops at the limit, and takes the center's best neighbours first |
| `Knowledge.Neighborhood` | `src/qhpc_ecosystem/knowledge.py:479-515` | Without truncation exactly what trails of at most the bounded depth reach, fewer than the bounded limit; with truncation exactly the limit, whole nearer layers first, and of the center's neighbours those of highest degree |
| `Knowledge.AdjacentIff` | `src/qhpc_ecosystem/knowledge.py:496-498` | Two nodes are adjacent exactly when some edge has them as its ends, in either order |
| `Knowledge.TrailReversed` | `src/qhpc_ecosystem/knowledge.py:528-530` | A trail read backwards is a trail |
| `Knowledge.FoundBothWays` | `src/qhpc_ecosystem/knowledge.py:517-567` | Source and target are connected both ways or neither, and best paths in the two directions have one length |
| `Knowledge.BallIsWithin` | `src/qhpc_ecosystem/knowledge.py:492-509` | The ball of a depth is what trails of at most that many edges reach |
| `Knowledge.BallSymmetric` | `src/qhpc_ecosystem/knowledge.py:492-509` | Being within a depth of each other is symmetric |
| `Knowledge.DegreeCounts` | `src/qhpc_ecosystem/knowledge.py:499-502` | One more edge adds one to the degree of each of its ends, two to a node it joins with itself |
| `Shim.RenderCommand` | `src/qhpc_ecosystem/slurm.py:246-261` | The rendered token list, parsed by the shim, gives back image, working directory, command and binds in order |
| `Shim.ParseCommand` | `infrastructure/test-clusters/slurm-docker-cluster/qhpc-oci-shim.py:76-112` | The parser accepts and refuses exactly as specified |
| `Shim.ParseIff` | `infrastructure/test-clusters/slurm-docker-cluster/qhpc-oci-shim.py:76-112` | What is accepted: exec, options spelled from a fixed list, a descriptor that is no option, and a command, where the last network named is none; what is read: the last directory named, and the binds in order |
| `Shim.ParseUndoesTokens` | `infrastructure/test-clusters/slurm-docker-cluster/qhpc-oci-shim.py:76-112` | Printing what can be read and reading it again is the identity |
| `Shim.TokensUndoParse` | `infrastructure/test-clusters/slurm-docker-cluster/qhpc-oci-shim.py:76-112` | Whatever the shim accepts is printable, and printing and reading it changes nothing |
| `Shim.TextSegments` | `src/qhpc_ecosystem/slurm_test_cluster.py:610-620` | The text of a resolved path has exactly its segments |
| `Shim.SegmentsBoth` | `infrastructure/test-clusters/slurm-docker-cluster/qhpc-oci-shim.py:157-160` | The segments of a path are those of what stands on the two sides of a slash |
| `Shim.DockerBinds` | `infrastructure/test-clusters/slurm-docker-cluster/qhpc-oci-shim.py:144-177` | Succeeds exactly when every bind is accepted, with the translations in order |
| `Shim.DockerBindIff` | `infrastructure/test-clusters/slurm-docker-cluster/qhpc-oci-shim.py:144-177` | A bind is translated exactly when it is two absolute paths without colons and a mode, the source a directory below the scheduler's root and nothing goes up; it names the same place below the host's root |
| `Shim.MountReturns` | `src/qhpc_ecosystem/slurm.py:183-188` | Mapping a host directory to the scheduler, printing it and reading it in the shim gives host path, destination and mode back, if and only if the source has no colon and is a directory |
| `Shim.JobRunsAsAsked` | `infrastructure/test-clusters/slurm-docker-cluster/qhpc-oci-shim.py:198-243` | A rendered job, read by the shim, runs the asked command with every host directory mounted where and how it was asked, in order |

## Left out

- Timestamps as text: the source sometimes compares them as strings, whose order differs from time when microseconds are zero; instants here are integers.
- History.SchedulingKeepsMeaning: for a deterministic runner, a fixed function of invocation and inputs; completions carry what it makes of a request built for that attempt.
- Log text, error documents, target metadata, stage durations, started and finished times: stored and returned, never branched on by what is modelled (an attempt's start time is kept, since claims sort by it).
- Artifact bytes: an artifact is its type and an opaque content value; digests are injective, so a workflow version is compared by its definition.
- Parameters.Worth: numbers are exact, so NaN, infinities and the rounding of JSON floats are not modelled; a supplied text that is compared with a bound raises in the source before later issues are collected, and is one more problem here.
- The check of target handles, stage names and target states against their patterns: the types here admit only valid ones.
- Resolving a submitted workflow a second time against a registry passed to `submit_run`: it can only refuse.
- The two kinds of cancel-request event are one, and retry events do not carry the attempt count.
- Worker registration, heartbeats, readiness reports, drafts, exports: no state that the protocol reads.
- Engine.WorkflowEngine.RecordTargetStatus: soundness of the result is stated for attempts with a handle and no cancel request, which is all the worker reports on (`ClusterSafety.AdvanceIsLawful`).
- Engine.WorkflowEngine.ReleaseLease: soundness of the result is stated for attempts with a handle, which is when the worker releases.
- Engine.WorkflowEngine.RetryTask: soundness of the result is stated under the condition of `RunControl.RetryKeepsIff`.
- Engine.WorkflowEngine.RegisterWorkflow: asks for what parsing and the schema guarantee, at least one node and distinct names of inputs and of outputs.
- Engine.WorkflowEngine.RunUntilIdle: no other worker acts on the store meanwhile; the loop's own worker admits everything; no canceled task has a live attempt at the start, since one with a handle would be served again each time its lease lapses (`Transactions.CanceledIsServedAgain`).
- Workers.AsyncWorker.RunOnce: nobody else acts between the calls of one round; `Cluster` has every interleaving and crash, and `Rounds.RunOnceIsProgram` relates the two. In both, event-only calls (`record_stage`, `record_reported_stages`), the synchronous `Worker` and the polling loops are left out, and the staging of inputs, scripts and images appears only as the exceptions it may raise.
- ClusterHistory.OneJobPerAttempt: assumes that the name lookup sees every job, that job names are injective in the attempt, and that no two workers were at `sbatch` for the attempt together; without the last it is false, see `Races.LapseMakesTwoJobs`.
- Engine.WorkflowEngine.TaskRequest: nothing happens between the lease check and the reads, and the reads are one step; `World.Build` has requests read at any time, under any lease.
- Liveness when cleanup removed a receipt before the task row was closed: the code does not promise it.
- Ordering.FindsCycle: ready nodes are a set from which any is taken; the source's queue is one of those orders.
- Pilots.PilotStore.Reserve: a second active reservation of an attempt is refused by the unique index and rolls back; the transaction holds the write lock throughout.
- Pilot metadata, creators, and the read-only listings.
- Knowledge.ShortestPath: the edges listed along the path and the node summaries are not modelled; loading, overlays, search and communities neither.
- Knowledge.Neighborhood: the induced subgraph that is returned is represented by its set of nodes.
- Shim.RenderCommand: the token list without node-local staging; the shell is taken to deliver exactly the quoted tokens, and directives, telemetry and the executable's own name are left out.
- Shim.MountReturns: paths are resolved ones, so symbolic links do not occur; a path text with exactly two leading slashes, which POSIX keeps apart, is read like one with a single slash.
- The Docker API, descriptors, logs and the rest of the shim.

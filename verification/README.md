# Puna, in Dafny

A model of the parts of Puna that are hard to get right by testing, with proofs of what they promise.

* **The room reconciler.** One room's row, its Deployment, Service and Secret in the cluster, its port
  reservation, its directory and a clock. The planner is `Planner.dfy`; the steps it plans are a
  machine (`Protocol.dfy`) in which every SQL statement and every cluster call is one transition, the
  environment may act between any two of them and the process may die between any two of them. A run
  is any sequence of labels. `Fleet.dfy` says what one pass plans in terms of the rows' own columns.
  `Ownership.dfy`, `RowLaws.dfy`, `Columns.dfy`, `Trails.dfy` and `Pacing.dfy` state what every run keeps;
  `Convergence.dfy` and `Recovery.dfy` show that a room wanted running gets there from anything a crash can
  leave, `Rest.dfy` that one nobody wants up comes down and one asked to be deleted goes, `Stranding.dfy`
  which failed rooms cannot, and `Withdrawal.dfy` when a room whose address would not do is planned again;
  `Reaching.dfy` builds the runs that show it. `Conflict.dfy`
  lets two orchestrators act on one room, `Quiescence.dfy` a quiet pass over a fleet. `Courses.dfy` and
  `Orchestrator.dfy` are the steps as they are written, an object whose methods make their calls one
  after another, each proved to follow the machine call for call. `Cadence.dfy` is the loop that paces
  the passes. `Storage.dfy` and `StorageVolume.dfy` are the room's directory under attempts that overlap
  and die, with the lock they and the deletion work under; `Orphans.dfy` asks whether the directory can
  outlive its row, `Hollow.dfy` when one can be shown without its seed. `Sweep.dfy` is the collection of
  orphaned Deployments, `Backoff.dfy` the retry delay.
* **The pickle writer.** `PickleWriter.dfy` is the writer, growing one buffer in loops; `Pickle.dfy` the
  stream it emits and a stack machine for exactly those opcodes, whose meaning is taken from pickle
  protocol 4 (PEP 307, PEP 3154); `PickleRoundTrip.dfy` the round trip; `Bytes.dfy` the integers.
* **The synthetic multiworld.** `Deal.dfy` pools, shuffles and deals a seed; `Cascade.dfy` shows why a
  load run over it ends; `Apportion.dfy` spends a rate exactly; `Counters.dfy` keeps the run's totals, and
  `Chronicle.dfy` says what they must be from what has happened alone.

Times are whole seconds (milliseconds in `Cadence.dfy`). Spec hashes, uids, addresses and ports are
opaque. What the code reads from outside is a parameter: a fresh port if the allocator has one, how the
spec renders, whether a delete is lost, every random draw, how each filesystem call turns out.

Every lemma is marked `{:induction false}`: an induction happens where its proof makes a recursive call
and nowhere else.

## Where the code and its documentation differ

The model follows the code. Each of these is stated and proved:

* A failed room wanted running can return to idle without being deleted if and only if it has a time to
  retry at, or still holds a pair and has a recorded hash (`ReturnsIff`). Dying between the two
  statements of a failure leaves one that cannot, if and only if it has lost its pair or never had its
  hash recorded (`CutShortStrandsIff`); runs from a new room reach both kinds
  (`ARefusedRoomCanBeStranded`, `AnUnrenderableRoomCanBeStranded`). Convergence therefore asks a failed
  room to have a time to retry, or a pair against which its spec renders differently than it was recorded;
  as long as the spec stays as it is, a room with neither never moves (`GivenUpStaysFailed`).
* Only refusals back off. A withdrawn start is planned to start again at the very instant it ended if and
  only if its address was a wrong one (`UnpacedIff`); after a refusal a retry is planned once the recorded
  wait is over or the spec has changed, and nothing before (`PlannedAgainExactly`). A run from a new room
  gets there without the clock moving (`MismatchIsUnpaced`).
* The conflict arm adopts whatever it re-reads. Run to its end, such a start leaves the room advertised on
  a Deployment that is going away or off the rendered hash if and only if the object it re-read was, and
  its Service answers on the configured address (`AdoptionMisleadsIff`). With one actor the arm is never
  reached (`ConflictNeedsASecondActor`); two orchestrators on a new room can end there
  (`ConflictCanAdoptTheDying`).
* An item batch that arrives after its connect rather than with it is counted twice unless the batch
  held everything already counted (`CountedOnceIff`); over a run every slot's count is right at every
  moment if and only if no connection is given items while it is behind that count (`AlwaysMatchIff`).
  A goal whose announcement fails is missing from the tally for good, so the run's terminating condition
  is never met (`TerminatesIff`, `FailedAnnouncementsAreLost`).
* A room's directory is said to go before its row. An attempt reads the row before it takes the lock and
  not again, so one that waits for the lock while the row goes shows a directory nothing references: at
  the moment the row goes a directory can appear again if and only if such an attempt is waiting and the
  generation is still there (`OutlivesIff`, `LateAttemptsOutliveTheRow`). An attempt whose database session
  is lost can do the same (`CutAttemptsOutliveTheRow`). Without either it cannot happen
  (`DirectoriesGoBeforeTheirRows`).
* A directory can be shown with no seed in it. Before any time passes that can happen if and only if some
  attempt past its copy has a temporary directory as old as the sweep's age, and the room's place is free
  or its deletion can free it (`HollowIff`). The directory laws hold of every run in which no attempt is
  ever so exposed (`DirectoriesAreSafe`), in particular when every attempt is faster than the sweep's age
  (`PromptDirectoriesAreSafe`); a run from a new room shows such a directory
  (`SlowAttemptsCanShowAHollowDirectory`).
* A room at rest is said to have nothing to clean up. A room asked to stop or close loses its Deployment for
  good if and only if it is not one whose Deployment runs on while its row is neither live nor stopping
  (`ComesDownIff`); a start that is still waiting for its Service's address leaves such a room, and a stop
  asked for just then is never carried out, with no crash on the way (`ARoomCanBeForgotten`).
* The opcode written for an integer is called the narrowest that holds it. Its encoding is the shortest one for
  exactly the integers outside -32768 to -1, which a one- or two-byte `LONG1` would say in fewer bytes
  (`IntsAreShortestIff`).
* The pickle round trip holds for exactly the trees whose strings are all shorter than 2^32 bytes
  (`LoadsUndoesDumpsIff`).
* A synthetic seed's item and location ids keep apart for exactly the slots of at most 500,000 locations
  (`IdsAreDisjointIff`).

## Model

| member | source | states |
|---|---|---|
| Planner.Plan | puna-orchestrator/src/plan.rs:354-443 | the sorting, skipping and filtering of one pass selects exactly the candidates with fewer than the cap ahead of them, in the caller's order; ahead is said of `redeployRequestedAt`, `idleSince` and the id |
| Planner.DeferredIffCrowded | puna-orchestrator/src/plan.rs:402-431 | sorting by key and skipping the first cap defers a candidate if and only if at least cap others of its step are ahead of it: never asked for before asked for, an earlier request before a later one, a room quiet for longer before another, the smaller id first of two alike |
| Fleet.EachStepIff | puna-orchestrator/src/plan.rs:445-626 | for each step, exactly the rows and readings that need it, with the deadlines in seconds |
| Fleet.DeploymentIsFirstListed | puna-orchestrator/src/cluster/mod.rs:312-314 | a room's Deployment is the first listed under its id, and there is none if none is listed |
| Fleet.PlannedIff | puna-orchestrator/src/plan.rs:354-443 | an action is in the plan if and only if the room needs the step, the pass may take it, fewer than the cap's rooms in need of a recreate were asked for earlier, and no room in need of a reap has been quiet for longer |
| Fleet.TakenAskedFirst | puna-orchestrator/src/plan.rs:398-412 | a room whose recreate is taken while another's is put off was never asked about or was asked for no later, with the smaller id if at once |
| Fleet.ReapedQuietLongest | puna-orchestrator/src/plan.rs:418-431 | the room that is reaped has the least `idleSince` of all that could be, the smaller id of two alike |
| Fleet.PlansFollowRows | puna-orchestrator/src/plan.rs:397-401 | a pass lists its actions in the order the rows were read, whatever the caps put off |
| Fleet.LooksAgainIff | puna-orchestrator/src/plan.rs:249-312 | a pass wants another look if and only if some room is in flight, some room's Deployment is draining, or it took a step other than marking a room running, not ready or degraded or giving up on its start |
| PlannerProperties.CapsAreExact | puna-orchestrator/src/plan.rs:391-431 | a pass takes exactly min(cap, wanted) recreates and at most one reap, whatever the fleet |
| PlannerProperties.SelectedIffKept | puna-orchestrator/src/plan.rs:433-443 | an action is in the plan if and only if it comes from a kept candidate |
| PlannerProperties.OneActionPerRoom | puna-orchestrator/src/plan.rs:349-353 | no pass plans two actions for one room |
| PlannerProperties.ConvergeIsUnpacedFull | puna-orchestrator/src/plan.rs:367-388 | a convergence pass plans the full pass's actions without recreates, not-ready counts and reaps, and nothing else differs |
| PlannerProperties.DeferralServesTheCap | puna-orchestrator/src/plan.rs:398-412 | when a recreate is deferred, the pass takes exactly cap recreates and every one of them was asked for before it |
| PlannerProperties.NoStarvation | puna-orchestrator/src/plan.rs:398-412 | with r rooms ahead of it a room is recreated by full pass r / cap, counting from zero, if its request stays and every other recreate was either waiting unserved with its request before or has a later `redeployRequestedAt`, or the same one and a larger id |
| PlannerProperties.QueueIsCarried | puna-orchestrator/src/plan.rs:402-412 | from one full pass to the next the queue ahead of a room loses what was served and gains nothing |
| PlannerProperties.QuietPassesStayQuiet | puna-orchestrator/src/reconcile.rs:105-107 | if a convergence pass whose steps succeed wants no further convergence, planning again at the same instant yields nothing, for every fleet |
| Quiescence.QuietFleetsStayQuiet | puna-orchestrator/src/reconcile.rs:105-107 | the same with every room's step carried out by the protocol's own calls, planned again over the worlds those calls left |
| PlannerProperties.SettledRoomRests | puna-orchestrator/src/plan.rs:249-312 | a room the loop does not wait on, after a step that leaves no work pending, has nothing to consider |
| Backoff.DelayBounds | puna-orchestrator/src/steps.rs:1368-1381 | every retry delay lies in 12 to 720 seconds, whatever the failure count and the room |
| Backoff.DelayGrows | puna-orchestrator/src/steps.rs:1362-1381 | a later failure never waits less, and from the seventh on the wait is constant |
| Backoff.DelayInterpolates | puna-orchestrator/src/steps.rs:1362-1381 | exactly how long a room waits: 15 seconds doubled per failure up to ten minutes, from a fifth under to a fifth over in proportion to the last byte of its id, in whole seconds |
| Ownership.EveryServiceIsOwned | puna-orchestrator/src/apply.rs:170-207 | in every run a Service's owner is the Deployment that exists, and that uid was recorded on the row before the Service was created |
| Ownership.ConvergedMeansAgreement | puna-orchestrator/src/apply.rs:117-238 | when a start is about to advertise, row, Deployment, Secret and Service agree on one uid not being deleted, with the rendered hash, on the configured address |
| Ownership.TeardownLeavesNothing | puna-orchestrator/src/apply.rs:240-251 | from wherever a run got to, teardown and the drain after it leave no object at all |
| Ownership.DroppedOnlyWhenEmpty | puna-orchestrator/src/steps.rs:1188-1256 | the directory is moved and the row dropped only once no object of the room is left |
| Ownership.ConflictNeedsASecondActor | puna-orchestrator/src/apply.rs:155-166 | with one actor and authoritative reads, creating a Deployment never conflicts |
| Conflict.AdoptionMisleadsIff | puna-orchestrator/src/apply.rs:155-237 | after a conflict the start, run to its end, leaves the room advertised on a dying or off-hash Deployment if and only if the object re-read was one and its Service answers on the configured address |
| Conflict.ConflictCanAdoptTheDying | puna-orchestrator/src/apply.rs:134-168 | two orchestrators, from a new room wanted running throughout, end with it advertised on a Deployment that is being deleted |
| RowLaws.EveryRowIsLawful | puna-orchestrator/src/steps.rs:290-307 | over every run: an idle, failed or provisioning room advertises nothing and has no start time; a live or stopping one has a recorded uid and hash; while a room advertises, its Service is on the configured address |
| RowLaws.NextKeepsLawful | puna-orchestrator/src/steps.rs:1446-1475 | no statement, cluster call, crash or environment step breaks the row laws |
| RowLaws.RunsKeepStopsDrain | puna-orchestrator/src/steps.rs:1143-1162 | a stopping room's Deployment is always already on its way out |
| Columns.EveryRowTells | puna-orchestrator/src/steps.rs:131-1475 | over every run the uid is the one last recorded unless cleared since, the hash is there exactly with it, the sweeps are those counted since the room came up or was cleared, a time to retry is the one last scheduled, and only a provisioning or deleted room has no time it was provisioned at |
| Columns.EveryMoveIsStamped | puna-orchestrator/src/steps.rs:131-1475 | whatever happens, a row whose state changes is stamped with that time and no other time is ever stamped; the time of provisioning is written once; a claim moves only a provisioning room and a retry only a failed one; a pair is never exchanged without being given up |
| Columns.WishesStand | puna-orchestrator/src/steps.rs:1408-1444 | whatever happens, what is wanted of a room changes only when it is asked to, or from running to stopped by a reap |
| Columns.AdvertisedIsPublished | puna-orchestrator/src/apply.rs:117-238 | in every run in which a rendering's hash tells its port, however often the spec changes, a live room is advertised on the pair it holds, and any advertised room on the port its Service is published on |
| Trails.ReapIff | puna-orchestrator/src/plan.rs:130-140 | a reap is planned if and only if the room runs, is wanted running and unpinned, has a fresh https probe, and every present one of last check and start is older than the timeout |
| Trails.ReapNeedsUptime | puna-orchestrator/src/reconcile.rs:530-551 | once its Deployment has been cleared, a room is not reaped again until it has been up longer than the timeout since a later start, even if last_check_at survived |
| Trails.DegradedNeedsTwoFullPasses | puna-orchestrator/src/plan.rs:610-616 | a room is marked degraded only after two separate full passes counted it not ready with nothing bringing it up in between |
| Trails.RequestsAreConsumedOnce | puna-orchestrator/src/steps.rs:757-806 | completed recreates for a request never outnumber the requests that took effect, and one still pending counts against them; asking again while one is pending takes no effect |
| Trails.WaitsNeverShrink | puna-orchestrator/src/steps.rs:1319-1344 | between successful starts the recorded waits never shrink, lie in 12 to 720 seconds and are constant from the seventh failure |
| Pacing.NextRefusalWaits | puna-orchestrator/src/steps.rs:436-528 | two refusals of one room are separated by the wait recorded after the first, unless that failure itself was cut short before its wait was recorded |
| Pacing.RefusalsAreBounded | puna-orchestrator/src/steps.rs:501-516 | between two refusals a span apart there are at most span / gap + 1, plus one for every refusal whose failure was cut short |
| Pacing.WaitsAreAtLeastTwelve | puna-orchestrator/src/steps.rs:1337-1344 | twelve seconds is always such a gap |
| Stranding.ReturnsIff | puna-orchestrator/src/plan.rs:500-535 | a failed room wanted running can return to idle without a deletion request if and only if it has a time to retry at, or holds a pair and has a recorded hash |
| Stranding.CutShortStrandsIff | puna-orchestrator/src/steps.rs:1319-1344 | in every run, dying between the statement that fails a room and the one that schedules its retry strands it if and only if it has lost its pair or has no recorded hash |
| Stranding.ARefusedRoomCanBeStranded | puna-orchestrator/src/steps.rs:436-528 | a run from a new room: provisioned, started, refused, quarantined, failed, and cut short; nothing but deletion moves it again |
| Stranding.AnUnrenderableRoomCanBeStranded | puna-orchestrator/src/steps.rs:261-274 | a run from a new room whose spec will not render, cut short: the pair is kept, no hash was ever recorded, and nothing but deletion moves it again |
| Stranding.StrandedForever | puna-orchestrator/src/plan.rs:446-535 | nothing short of asking for its deletion, whatever is asked, crashes or drains, moves such a room again |
| Withdrawal.PlannedAgainExactly | puna-orchestrator/src/steps.rs:352-528 | however long after a withdrawn start its Deployment has drained, the next pass starts the room if the address was a wrong one, and after a refusal retries it exactly when the recorded wait is over or the spec has changed |
| Withdrawal.UnpacedIff | puna-orchestrator/src/steps.rs:352-387 | a withdrawn room is planned to start at the instant its start ended if and only if the address was a wrong one, and then with no pair held |
| Withdrawal.MismatchIsUnpaced | puna-orchestrator/src/steps.rs:352-387 | a run from a new room: provisioned, started, given a wrong address, withdrawn, drained and planned to start again, the clock standing still |
| Convergence.RoundLowers | puna-orchestrator/src/plan.rs:446-626 | every pass over a room not yet up that does not find a reap due lowers a rank over row, cluster and clock, or is a convergence pass leaving a recreate to a full one |
| Convergence.PassAdvances | puna-orchestrator/src/steps.rs:206-546 | one pass, whatever else it plans than a reap, never takes the room further away |
| Convergence.RoundIsARun | puna-orchestrator/src/apply.rs:117-238 | each round is a run of the protocol: time, a delivery, a plan from a fresh reading, and its calls |
| Recovery.ComesUp | puna-orchestrator/src/plan.rs:446-626 | from any recoverable world, whatever the reaper's timeout, the pin, the probes, the kinds of pass and the delays, the room is up after some number of passes and stays up until a reap falls due; or a pass finds it running and due to be reaped before that |
| Recovery.StaysUpUnreaped | puna-orchestrator/src/plan.rs:446-626 | a room that no pass finds due to be reaped comes up and is up after every later pass |
| Recovery.GivenUpStaysFailed | puna-orchestrator/src/plan.rs:500-535 | a failed room with no time to retry and no pair its spec renders differently against is failed after every number of rounds, so what recovery asks is exact |
| Recovery.DueIsReaped | puna-orchestrator/src/steps.rs:1408-1444 | a full pass that finds a reap due asks the room to stop and does nothing else, a convergence pass does nothing, and only a running, unpinned room with its Deployment there is ever due |
| Recovery.CrashesLeaveRecoverable | puna-orchestrator/src/steps.rs:206-546 | every run cut short anywhere leaves a recoverable world, given only the state, the wish and what would retry it |
| Recovery.RoomsRecover | puna-orchestrator/src/plan.rs:446-626 | from a new room, through any run and any crash, to a running room or one due to be reaped |
| Rest.ComesDown | puna-orchestrator/src/plan.rs:535-554 | a room asked to stop or close, unless forgotten, is at rest with no Deployment after some number of passes and after every larger number of them, whatever the kinds of pass and the delays |
| Rest.ComesDownIff | puna-orchestrator/src/plan.rs:490-554 | a room asked to stop or close loses its Deployment for good if and only if it is not one whose Deployment runs on while the row is neither live nor stopping |
| Rest.StopsAreCarriedOut | puna-orchestrator/src/steps.rs:1143-1162 | from a new room through any run and any crash, a live or stopping room that is then asked to stop or close ends idle with no Deployment, and stays so |
| Rest.ARoomCanBeForgotten | puna-orchestrator/src/apply.rs:209-223 | a run from a new room, nothing dying: a start waits for its address, the room is asked to stop, and it is idle over a Deployment that runs on |
| Rest.EveryDeletionEnds | puna-orchestrator/src/steps.rs:1188-1256 | a room asked to be deleted, in whatever state and with whatever in the cluster, is gone after some number of passes and stays gone: row, pair, Deployment, Secret, and the Service its Deployment owned |
| Orchestrator.Steps.FindOrCreate | puna-orchestrator/src/apply.rs:134-168 | the live read, the deleting check before the hash, the delete or the create follow the machine call for call |
| Orchestrator.Steps.Reread | puna-orchestrator/src/apply.rs:158-164 | the conflict arm takes whatever uid is there, or reports the object vanished, as the machine does |
| Orchestrator.Steps.Create | puna-orchestrator/src/apply.rs:155-167 | under a free name a new Deployment with a fresh uid and the rendered hash; under a taken one the conflict arm |
| Orchestrator.Steps.JudgeAddress | puna-orchestrator/src/apply.rs:209-237 | a wrong or refused address withdraws the Deployment before anything else, and only the configured one converges |
| Orchestrator.Steps.EnsureRoomRunning | puna-orchestrator/src/apply.rs:117-238 | the ordered effects with their early returns leave exactly the machine's worlds, in order, and the outcome the machine continues from |
| Orchestrator.Steps.TeardownRoom | puna-orchestrator/src/apply.rs:246-251 | the Deployment is deleted and then the Secret by name |
| Orchestrator.Steps.Start | puna-orchestrator/src/steps.rs:206-546 | a start from its allocation to its end follows the machine call for call |
| Orchestrator.Steps.Conclude | puna-orchestrator/src/steps.rs:289-528 | what each outcome of a start writes, quarantines or fails, in order |
| Orchestrator.Steps.FailWith | puna-orchestrator/src/steps.rs:1275-1360 | delete, then the failure with its count, then the retry computed from that count |
| Orchestrator.Steps.Recreate | puna-orchestrator/src/steps.rs:757-789 | delete, clear, consume the request |
| Orchestrator.Steps.MarkRunning | puna-orchestrator/src/steps.rs:808-831 | the start time is kept if there is one, the counters and the retry are cleared |
| Orchestrator.Steps.BumpNotReady | puna-orchestrator/src/steps.rs:1028-1061 | a counted sweep, and on the third the degraded state |
| Orchestrator.Steps.Stop | puna-orchestrator/src/steps.rs:1143-1162 | delete, then stopping |
| Orchestrator.Steps.Retry | puna-orchestrator/src/steps.rs:1164-1180 | only a failed room returns to idle, and its failure count survives |
| Orchestrator.Steps.Reap | puna-orchestrator/src/steps.rs:1408-1444 | only a room still wanted running is asked to stop |
| Orchestrator.Steps.Delete | puna-orchestrator/src/steps.rs:1188-1256 | the row goes only once the live read finds no Deployment |
| Orchestrator.Steps.ClearDeployment | puna-orchestrator/src/steps.rs:1446-1475 | back to idle with uid, hash, address and start time forgotten |
| Orchestrator.Steps.Provision | puna-orchestrator/src/steps.rs:131-141 | the claim moves only a provisioning room to idle and keeps an earlier provisioning time |
| Orchestrator.Steps.Execute | puna-orchestrator/src/steps.rs:82-104 | every planned step leaves exactly the machine's worlds behind and ends where the machine does, and from a state the invariants hold of, ownership, recording order and the row laws hold of every one of those worlds |
| Courses.EveryCrashPointIsSound | puna-orchestrator/src/apply.rs:117-251 | wherever along a step the process dies or a transient error ends it, ownership, recording order and the row laws hold of the world it leaves |
| Courses.EveryFatalExitIsSound | puna-orchestrator/src/steps.rs:214-543 | a fatal cluster error after any number of a start's calls, or a database error while its pair is allocated, fails the room, and the same holds of every world of that failure |
| Courses.FatalErrorsFail | puna-orchestrator/src/steps.rs:214-543 | a fatal error ends every call of a start but the rendering, the two statements on the row and the quarantine, and then the room is failed once more with the wait its count gives and its pair kept |
| Cadence.ReconcileUntilLost | puna-orchestrator/src/main.rs:205-273 | each pass comes exactly on cue: one debounce after a wake that comes before the deadline, otherwise at the deadline, which is the full interval since the last full pass or, if another look was wanted, a convergence interval after the end if that is sooner; it is a full pass exactly when the interval is over; full passes start at least an interval apart; and there are exactly as many passes as turns before the lock is lost |
| Cadence.FullPassesPerWindow | puna-orchestrator/src/main.rs:200-206 | full passes inside any window number at most window / interval + 1 |
| Cadence.StretchesArePaced | puna-orchestrator/src/main.rs:244-246 | any stretch of a paced run is paced |
| Cadence.PacedStepsPerWindow | puna-orchestrator/src/plan.rs:367-431 | however often the loop wakes, a window sees at most max_recreates * (window / interval + 1) recreates and window / interval + 1 reaps |
| Storage.DirectoriesAreSafe | puna-orchestrator/src/storage.rs:107-290 | under any interleaving of attempts, lost sessions, crashes, sweeps and deletion in which no attempt past its copy has a directory old enough to be swept: a visible directory holds the complete seed, a claiming row has one until deletion is asked for, and one ever visible is in place or in the trash |
| Storage.PromptDirectoriesAreSafe | puna-orchestrator/src/storage.rs:256-290 | so it is in every run whose attempts are each faster than the sweep's age |
| Storage.UndisturbedAttemptsProvision | puna-orchestrator/src/steps.rs:109-167 | whatever earlier attempts left and wherever they died, with the lock free an attempt that is let finish leaves the directory with its seed, the row claiming it, the lock free and no other directory touched |
| Hollow.HollowIff | puna-orchestrator/src/storage.rs:151-290 | from a world that keeps the laws a directory without its seed can be shown before any time passes if and only if some attempt past its copy has a directory of the sweep's age and its place is free or can be freed |
| Hollow.ReachedHollowIff | puna-orchestrator/src/storage.rs:256-290 | the same of every world one label past a run from a new room with nothing exposed, and that label alone breaks no law |
| Orphans.DirectoriesGoBeforeTheirRows | puna-orchestrator/src/steps.rs:1182-1256 | in every run a room whose row is gone has no directory and all it ever showed is in the trash, unless an attempt lost its session or took the lock after the row had gone |
| Orphans.OutlivesIff | puna-orchestrator/src/steps.rs:109-167 | when the deletion drops the row with sessions intact, a directory can appear again if and only if the generation is there and some attempt has read the row but not yet asked for the lock |
| Orphans.LateAttemptsOutliveTheRow | puna-orchestrator/src/steps.rs:117-129 | a run from a new room, every session intact, that ends with a directory and no row |
| Orphans.CutAttemptsOutliveTheRow | puna-orchestrator/src/steps.rs:124-150 | a run in which an attempt whose session is gone renames its directory into place after the row has gone |
| Storage.NextKeepsSound | puna-orchestrator/src/steps.rs:109-167 | while no attempt is exposed, no call, crash, sweep or deletion step breaks the directory laws |
| Storage.SlowAttemptsCanShowAHollowDirectory | puna-orchestrator/src/storage.rs:256-290 | a run from a new room in which an attempt outlives the sweep's age and shows a directory with no seed |
| StorageVolume.Volume.Provision | puna-orchestrator/src/storage.rs:107-190 | a directory already there is left alone, a new one is whole or not there at all, and the calls are the machine's attempt run alone |
| StorageVolume.Volume.Publish | puna-orchestrator/src/storage.rs:151-189 | copy, sync, rename and the clean-up after each failure |
| StorageVolume.Volume.Trash | puna-orchestrator/src/storage.rs:207-226 | what was in the directory is all in the trash, or nothing moved |
| StorageVolume.Volume.SweepTempDirs | puna-orchestrator/src/storage.rs:256-290 | exactly the expired attempts that could be removed are gone, no other is touched, and each is counted |
| Sweep.Sweeper.CollectOrphans | puna-orchestrator/src/sweep.rs:141-205 | what is deleted, left pending and remembered, with failed deletes not counted |
| Sweep.TwoSightings | puna-orchestrator/src/sweep.rs:160-186 | a Deployment is condemned if and only if this collection and the one before both saw its name orphaned and it is at least 120 seconds old |
| Sweep.CollectAll | puna-orchestrator/src/sweep.rs:141-205 | the same over any series of collections by one sweeper |
| Bytes.Long1Body | puna-tools/src/pickle.rs:208-218 | the loop returns the one shortest non-empty body that decodes to n |
| Bytes.SignedUndoesIff | puna-tools/src/pickle.rs:204-207 | decoding a truncated body gives n back if and only if that many bytes hold n: one too few flips the sign |
| Bytes.SignExtension | puna-tools/src/pickle.rs:211-216 | the writer's test for dropping a byte holds exactly when one byte fewer still holds n |
| PickleWriter.Out.WriteInt | puna-tools/src/pickle.rs:181-202 | the narrowest opcode for every 64-bit value |
| PickleWriter.Out.WriteTuple | puna-tools/src/pickle.rs:151-172 | the short forms for one to three members and the marked form beyond |
| PickleWriter.Out.WriteStr | puna-tools/src/pickle.rs:220-230 | the one-byte or four-byte length prefix, the latter truncated as written |
| PickleWriter.Out.WriteGlobal | puna-tools/src/pickle.rs:142-146 | module, name, then the opcode that pops them in the opposite order |
| PickleWriter.Out.Write | puna-tools/src/pickle.rs:80-137 | the loops append exactly the encoding of the tree |
| PickleWriter.WriteDumps | puna-tools/src/pickle.rs:71-78 | the whole stream is read back as its value if and only if its strings are short |
| PickleRoundTrip.ReadsInt | puna-tools/src/pickle.rs:181-202 | every 64-bit integer survives its opcode |
| PickleRoundTrip.IntsAreShortestIff | puna-tools/src/pickle.rs:174-202 | no form of an integer is shorter than the one written, if and only if it is not between -32768 and -1 |
| PickleRoundTrip.TextsAreShortest | puna-tools/src/pickle.rs:220-230 | no form of a string is shorter than the one written |
| PickleRoundTrip.Reads | puna-tools/src/pickle.rs:80-137 | from any stack, any marks and any following bytes, the machine pushes exactly the value and consumes exactly its bytes |
| PickleRoundTrip.LoadsUndoesDumpsIff | puna-tools/src/pickle.rs:10-15 | the reader undoes the writer for exactly the trees whose strings fit their length prefix |
| PickleRoundTrip.ExecuteIsShort | puna-tools/src/pickle.rs:220-230 | no stream at all makes the machine build a longer string |
| PickleRoundTrip.DumpsIsInjective | puna-tools/src/pickle.rs:71-78 | two trees with one stream are one tree |
| Deal.GamesOf | puna-tools/src/seed.rs:153-192 | a game's Goal id is none of its ordinary items' ids |
| Deal.IdsAreDisjointIff | puna-tools/src/seed.rs:37-47 | item and location ids keep apart, within and across games, if and only if a slot has at most 500,000 locations |
| Deal.Shuffle | puna-tools/src/seed.rs:234-234 | the array ends in the order its draws settle on: the last place takes one drawn from all there are, the one that stood last fills the gap, and so on down; a permutation of the pool |
| Deal.EveryOrderIsDrawn | puna-tools/src/seed.rs:234-234 | for every pool and every permutation of it some draws leave that permutation |
| Deal.DrawsDecide | puna-tools/src/seed.rs:234-234 | of items that all differ, two draws leave the same order if and only if they pick alike at every place |
| Deal.PoolHolds | puna-tools/src/seed.rs:210-232 | what stands at each place of the pool, by ids: for each player its drawn items with their marks, and its Goal last |
| Deal.DealHands | puna-tools/src/seed.rs:203-243 | each player gets exactly its locations' worth, and the hands end to end are the pool in the order the draws settle on |
| Deal.EveryArrangementIsDealt | puna-tools/src/seed.rs:203-243 | every arrangement of the pool into full hands is dealt, and by some draws it is the only one |
| Deal.DealsHaveOneGoalEach | puna-tools/src/seed.rs:7-17 | however drawn and shuffled, exactly one Goal addressed to each player exists |
| Deal.CheckInvariants | puna-tools/src/seed.rs:523-567 | the check accepts if and only if every hand has its size, each player has one own Goal and the slots fit a slot number |
| Deal.Build | puna-tools/src/seed.rs:134-137 | the hands are exactly those the draws settle on, and the check accepts every deal, unless players and spectators exceed a 32-bit slot number |
| Cascade.LackedGoalsAreReachable | puna-tools/src/seed.rs:19-25 | while a player lacks its Goal, the slot whose world holds it has not goaled and still has a location to check |
| Cascade.NothingRaises | puna-tools/src/load.rs:1031-1085 | no check, goal, release, drop or restart un-checks a location or takes back a goal |
| Cascade.DeclaresAtOnceIff | puna-tools/src/load.rs:1050-1085 | a slot declares with its connect if and only if it knew already, has nothing left to check, or finds its Goal in the history it is replayed |
| Cascade.VisitLowers | puna-tools/src/load.rs:1276-1317 | a connection that lasts until a slot that can move has heard, sent and been read leaves fewer unchecked locations or fewer undeclared goals, whatever every other slot does meanwhile |
| Cascade.EveryFairRunEnds | puna-tools/src/seed.rs:19-25 | every fair run over a dealt seed, the slots' labels interleaved in any way, ends with every player holding its Goal and every goal declared, and stays there |
| Cascade.TakingTurnsIsFair | puna-tools/src/load.rs:1013-1085 | any number of slots taking turns label by label for ever, none acting twice in a row, is such a run |
| Cascade.DealsAreDealt | puna-tools/src/seed.rs:203-243 | every deal is a seed such a run can be played over |
| Apportion.PlanWindow | puna-tools/src/load.rs:602-643 | the budget is spent exactly; each count is its share rounded down or up, up for exactly the largest fractions; flat windows differ by at most one |
| Apportion.SortByFraction | puna-tools/src/load.rs:629-634 | the order is total, by fraction descending and then by tick |
| Apportion.HandOutExtras | puna-tools/src/load.rs:627-641 | the remainder goes out one each to the front of the order |
| Apportion.RoundedIsWithinOne | puna-tools/src/load.rs:621-641 | each tick's count is strictly less than one away from its share |
| Apportion.Pace.WindowBudget | puna-tools/src/load.rs:666-673 | a window grants what is due by now less what was granted, never less than nothing |
| Apportion.GrantWindows | puna-tools/src/load.rs:653-673 | after every number of windows exactly what was due by then has been granted |
| Apportion.StretchIsWithinOne | puna-tools/src/load.rs:653-665 | any stretch of m windows grants within one of ten times the rate times m |
| Counters.TotalsAddUp | puna-tools/src/load.rs:359-407 | under any interleaving: connected is the live guards, drops less reconnects the slots down against their will, goaled the goals told, items what the slots counted |
| Chronicle.RunsMatch | puna-tools/src/load.rs:359-472 | every slot's state and all five totals are what the happenings say: who has a connection, how many each has had and lost, whose goal was announced when it was first given, and what each has counted |
| Chronicle.GoalCountedIff | puna-tools/src/load.rs:1050-1085 | a slot has counted its goal if and only if some happening gave it one, announced or not |
| Chronicle.AlwaysRightIff | puna-tools/src/load.rs:428-464 | over any happenings every slot has at every moment counted exactly what some connection was sent of its history, if and only if no items come over a connection that has been sent less than its slot has counted |
| Chronicle.TerminatesIff | puna-tools/src/load.rs:422-427 | after any run the terminating condition is met if and only if every slot was given its goal, with a connection it finishes or over one it has, and announced it the first time |
| Chronicle.RunsEndOnlyWhenEverybodyHasGoaled | puna-tools/src/load.rs:422-427 | the terminating condition is met only when every slot was given its goal and has counted it |
| Counters.FailedAnnouncementsAreLost | puna-tools/src/load.rs:1305-1313 | one failed announcement anywhere in a run, whatever happens after it, keeps the terminating condition from ever being met |
| Counters.ItemsAreCountedOnce | puna-tools/src/load.rs:428-456 | with every replay arriving whole at its connect, each history entry is counted exactly once |
| Counters.CountedOnceIff | puna-tools/src/load.rs:449-464 | for one reconnect, each entry is counted once if and only if the batch held everything already counted or nothing came later |
| Counters.AlwaysMatchIff | puna-tools/src/load.rs:428-464 | over any run each slot has counted each entry once at every moment if and only if no connection is ever given items while behind what its slot has counted |
| Counters.Session.AbsorbReplay | puna-tools/src/load.rs:449-456 | only what is past the high-water mark is counted |
| Counters.Session.AbsorbLive | puna-tools/src/load.rs:459-464 | live items are all counted |
| Counters.Session.Goal | puna-tools/src/load.rs:467-472 | the goal is recorded, and first is said once |
| Counters.Connection.constructor | puna-tools/src/load.rs:382-392 | a return is counted only for a slot that has been up |
| Counters.Connection.Drop | puna-tools/src/load.rs:400-407 | a drop is counted only for a connection not closed cleanly |
| Counters.Player.Open | puna-tools/src/load.rs:1013-1085 | the handshake, the replay and a goal already won follow the slot's step |
| Counters.Player.Receive | puna-tools/src/load.rs:1276-1317 | received items, a goal found and its announcement follow the slot's step |

## Left out

- Transient cluster errors, lock contention and lost statements: each ends a step early with nothing further done, which is the machine's interruption; fatal cluster errors are a label of the machine, not of the methods.
- A second orchestrator acting on the same room: the protocol has one actor; only the conflict arm and the directory are looked at under two.
- Stale reads by the applier: its reads are live and authoritative as the code says; only the planner's are arbitrary.
- The port allocator's phases, reclaim order and range checks: a fresh pair is a parameter, and an idle room's pair may be reclaimed by the environment.
- Spec and Secret rendering, and `attach_desired_spec_hashes`: the hash and its presence are parameters.
- `refresh_secrets`, the LRU touch, the trash retention sweep, orphaned directories and the reports: they do not take part in the lifecycle.
- Asking a room to stop before deleting it, reapplying locks and filters, events, metrics and logs: they decide nothing here.
- Power loss: the directory laws are for process crashes; the model does not say which renames have reached the disk.
- Timers that fire late: the loop's waits end exactly on time, or earlier when woken.
- `sort_by_key`: the library's stable sort is modelled by insertion on values, so its exchanges in place are not.
- Recovery.ComesUp: nobody asks the room to stop, restart or be deleted while it comes up, because that is a different instruction; a reap is one too, and is an outcome of the theorem.
- Rest.ComesDown: nobody asks the room for anything else while it comes down, and passes see fresh readings, as for one coming up.
- Columns.AdvertisedIsPublished: that a spec's hash tells the port it was rendered against is asked of the renderings, because rendering is a parameter.
- Orchestrator.Steps.FindOrCreate: in one pass over the methods the cluster changes only by their own calls, so its create never meets the conflict; `Create` and `Reread` are proved from any world, and the conflict itself is in `Conflict.dfy`.
- Orchestrator.Steps.EnsureRoomRunning: has no exits for cluster errors; what they leave is stated of the machine (`EveryCrashPointIsSound`, `EveryFatalExitIsSound`).
- Orchestrator.Steps.Start: likewise, and it is never skipped because another actor holds the room's lock, which leaves everything as it was.
- Orchestrator.Steps.Delete: the directory's move to the trash is in `Storage.dfy`, with the lock both are done under.
- Storage.DirectoriesAreSafe: one room and one deleter; attempts have distinct nonces, as random ones do; a claim and its commit are one transition.
- The reader crate's allowlist, memo and remaining opcodes, UTF-8 validity, and duplicate keys or members, which the tree keeps as written.
- Apportion.PlanWindow: weights are arbitrary real numbers; drawing them and floating-point rounding are not modelled.
- Word lists, handles, the multidata tree, packaging and JSON framing of the synthetic seed.
- `to_send`: the room reports what is missing as a set, so the filter has nothing to remove.
- Deal.Build: slots are unbounded numbers until the check, where the code counts them in 32 bits throughout.
- Cascade.EveryFairRunEnds: the room is only what is documented of it: replay from the start, release on a goal, no collect.
- The web tier, authentication, configuration and the command queue.

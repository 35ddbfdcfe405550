# Clustodian control loop: a verified model

Clustodian assigns partition replicas to participants the way Apache Helix does. A controller reads
a snapshot of a shared store, works out where every replica should be, and publishes a queue of
single-step state transitions; participants carry them out and report back; controllers are elected,
sessions come and go, and everything is held together by fenced transactions on the store. This
project models that loop in Dafny and proves what it is for.

The modules follow the program:

- `Routes`, `StateModels`, `LeaderStandby`: the state-model builder, with the in-place ordered
  Floyd-Warshall next-hop table proved against shortest distances, and the table of the built-in
  LeaderStandby model in closed form.
- `BestPossible`, `LsPlacement`: the best-possible assignment loop with its shared, consumed iterator.
- `Generation`, `Selection`, `LsSelection`: one-step transition requests and the greedy,
  cardinality-bounded choice among them.
- `Quotas`, `Throttle`, `Intermediate`, `Conservation`, `ThrottleOrder`, `ThrottleLaws`, `ThrottleCycle`:
  throttling quotas, the dispatch order, work conservation and the intermediate states.
- `Planning`, `Pipeline`, `Cycle`, `Allowance`, `Reconcile`: the stages composed into one controller
  cycle that turns a snapshot and a queue into the next queue within the configured throttles.
- `Quiescence`, `Settling`, `Convergence`: silence means a settled cluster, and with fixed inputs the
  cluster settles after linearly many transitions.
- `Protocol`, `Freshness`, `LeaderSafety`, `Visibility`, `Settlement`, `Guarantees`, `Availability`: the
  fenced protocol over the store as a state machine, its safety over every run, its convergence
  between input changes, and what it always lets go on.
- `Election`, `Frontier`, `Sessions`, `Crush`: controller election, the participant's completion
  frontier, the participant session model and CRUSH replica selection.
- `Types`, `Ordering`: shared identifiers and states, ordered keys and stable sorting.

Code that the source runs step by step (matrices, quotas, queues, builders, the frontier, session
bookkeeping) is imperative here too, as methods and classes proved against functions; the laws are
proved about those functions. `dafny verify dfyconfig.toml` checks the project.

Two statements one might expect are false of the code:

- A cycle can fail. A retained queued step up (OFFLINE to STANDBY, or STANDBY to LEADER) for a
  partition that has lost its preference list makes selection refuse the whole cycle.
  `Cycle.StrandedStepStopsTheCycle` gives an instance, and `Cycle.CycleSucceedsIff` shows that a
  cycle over a published queue succeeds if and only if there is no such message, and always after a
  session replacement.
- One leader per partition does not survive removing a live leader's instance from the configuration,
  because planning then no longer sees it (`Visibility.DeconfiguringALeaderIsUnsafe`). The
  administrative operation refuses exactly that, and with its guard `Guarantees.AtMostOneLeader`
  needs no further assumption about configured instances.

## Model

| member | source | states |
|---|---|---|
| `Routes.InitializeMatrices` | src/model/state_model.rs:267-289 | every cell starts at one hop for a declared edge, a self-loop included, at zero on the rest of the diagonal and empty elsewhere, which satisfies the invariant of the passes |
| `Routes.RelaxThrough` | src/model/state_model.rs:291-312 | one pass of the triple loop, updating both matrices in place, equals a simultaneous relaxation of the matrices it started from |
| `Routes.PassKeepsRelaxed` | src/model/state_model.rs:291-312 | every pass keeps the triangle inequality for the intermediates done so far and keeps each hop one step closer to its target |
| `Routes.RelaxedIsDistance` | src/model/state_model.rs:267-327 | after all passes an off-diagonal distance exists exactly when a walk does, and is the shortest |
| `Routes.HopShortensByOne` | src/model/state_model.rs:291-327 | a next hop is a declared edge whose end is exactly one step closer to the target |
| `Routes.PassKeepsTied` | src/model/state_model.rs:291-312 | because only a strictly shorter way replaces a hop, every pass keeps the tie rule for the intermediates done so far |
| `Routes.BuildHops` | src/model/state_model.rs:267-312 | the finished matrices satisfy all of the above, and ties are broken as the loop order says: of several shortest walks the one whose highest intermediate comes first decides, and the hop is the target itself or the hop toward that intermediate |
| `StateModels.BuildTransitionTable` | src/model/state_model.rs:267-327 | the published table holds an entry exactly for reachable off-diagonal pairs, each a declared transition that shortens the way by one, and of equally short ways the one the tie rule picks |
| `StateModels.FollowArrives` | src/model/state_model.rs:93-98 | following next hops for the distance between two states ends at the target |
| `StateModels.EveryStateDrains` | src/model/state_model.rs:187-200 | in every accepted model each state reaches DROPPED by following next hops |
| `StateModels.Build` | src/model/state_model.rs:142-212 | building succeeds exactly for well-formed declarations whose every state can reach DROPPED, publishes them unchanged with a correct table under the tie rule, and otherwise reports a true reason |
| `LeaderStandby.BuiltTableIsUnique` | src/model/builtins.rs:4-19 | every correct next-hop table for the LeaderStandby declarations is the same one |
| `LeaderStandby.HopIsNextToward` | src/model/state_model.rs:93-98 | next hops of LeaderStandby in closed form, none from DROPPED, ERROR or unknown states |
| `LeaderStandby.LeaderStandbyDefinition` | src/model/builtins.rs:4-19 | building the built-in model never fails and gives the closed form |
| `BestPossible.SetStateRefuses` | src/model/replica_state.rs:35-49 | the builder refuses exactly a replica that already has a state, and otherwise sets that replica's state alone |
| `BestPossible.FillStateExact` | src/rebalance/semi_auto.rs:67-102 | one state's loop assigns exactly the smaller of its count and the live preferred replicas still unassigned, and reassigns none |
| `BestPossible.FillStateLoop` | src/rebalance/semi_auto.rs:67-102 | the loop over one state writes each assignment in turn, none of them refused, and leaves the queue and the consumed iterator as specified |
| `BestPossible.StatesServedInPriorityOrder` | src/rebalance/semi_auto.rs:54-102 | for every state model, states are served strictly in priority order, each getting the smaller of its cardinality count and what is left, despite the consumed iterator |
| `BestPossible.LivePositions` | src/rebalance/semi_auto.rs:54-58 | the live preferred instances are exactly those at the live positions of the preference list, in list order |
| `BestPossible.HoldersByCardinality` | src/rebalance/semi_auto.rs:67-126 | for every state model, of the live preferred instances the higher states leave over, a state with a fixed count is held by that many or all, one counted by replicas or nodes by all, any other by none |
| `BestPossible.ListServedInOrder` | src/rebalance/semi_auto.rs:67-102 | for every state model, whoever precedes the holder of a state below the top one on the preference list holds that state or a higher one |
| `BestPossible.TopGoesToTheBest` | src/rebalance/semi_auto.rs:76-182 | for every state model, if the top state goes to an instance that is neither in it nor one step away, no live preferred instance without it has a higher current state |
| `BestPossible.ComputeBestPossible` | src/rebalance/semi_auto.rs:31-120 | every state, DROPPED or assigned, is written through the duplicate-refusing builder as the loops reach it, and the builder never refuses: DROPPED goes only to replicas off the list and each assignment to a live preferred instance that has none yet |
| `LsPlacement.AssignedIsPlacement` | src/rebalance/semi_auto.rs:54-182 | under LeaderStandby the loop has a closed form: the first live preferred replica leads if warm or alone, else the warmest does, and all others stand by |
| `LsPlacement.AssignedOnList` | src/rebalance/semi_auto.rs:54-182 | in terms of the list: the first live position leads if its replica is LEADER or STANDBY, otherwise the live position with the best current state, the first of equals; every other live position stands by |
| `LsPlacement.LeaderIsWarm` | src/rebalance/semi_auto.rs:54-182 | the assignment loop never gives LEADER to a cold replica while a live preferred one is LEADER or STANDBY |
| `Generation.GenerateTransitions` | src/controller/message_generation.rs:43-104 | fails exactly when the current and target maps hold different replicas, naming one that is missing; otherwise lists every step by partition and instance |
| `Generation.InSteps` | src/controller/message_generation.rs:52-75 | a request is generated exactly for a replica that is not at its target and has a way there, one hop long |
| `Selection.GreedyAdmissible` | src/controller/message_selection.rs:163-184 | the greedy choice keeps within every bound and leaves out only what a full bound refuses |
| `Selection.InSelected` | src/controller/message_selection.rs:130-185 | partitions are independent: a step is selected exactly when its own partition's choice keeps it |
| `Selection.ChosenWithinLimit` | src/controller/message_selection.rs:138-184 | with the states of live replicas and both ends of pending steps counted, chosen steps never exceed a fixed cardinality, or the number of live instances for a state counted by nodes |
| `Selection.LeftOutByPriority` | src/controller/message_selection.rs:145-184 | a candidate is left out only when such a limit is reached by what is there and by chosen steps whose transitions are declared no later than its own |
| `Selection.SelectTransitions` | src/controller/message_selection.rs:61-187 | succeeds exactly when every candidate is of the resource and every candidate and pending step is of a known partition or on the drop path, with one pending step per replica; each error names a true offender |
| `LsSelection.LsChosen` | src/controller/message_selection.rs:138-185 | under LeaderStandby every step but a promotion is selected, and one promotion is, exactly when nothing live leads and nothing pending leads or stops leading |
| `Quotas.ChargesSaturate` | src/controller/message_throttle.rs:757-789 | after any charges, every quota of every scope is its start minus the charges that count against it, floored at zero |
| `Quotas.AdmittedWorkIsPaid` | src/controller/message_throttle.rs:740-789 | work that was admitted step by step never exceeds any quota |
| `Quotas.ThrottlingPersists` | src/controller/message_throttle.rs:740-789 | what is throttled stays throttled for the rest of the cycle |
| `Quotas.ExhaustionPersists` | src/controller/message_throttle.rs:757-789 | a quota that is exhausted stays exhausted, in its own scope, whatever is charged afterwards |
| `Quotas.PositiveLimitsAdmit` | src/controller/message_throttle.rs:691-738 | with every configured limit positive, a fresh controller throttles nothing |
| `Quotas.ThrottleController.constructor` | src/controller/message_throttle.rs:691-738 | limits apply to every known resource or live instance, or to the one they target, later ones replacing earlier ones |
| `Quotas.ThrottleController.ShouldThrottle` | src/controller/message_throttle.rs:740-755 | throttles exactly when some scope covering the work is exhausted for its class |
| `Quotas.ThrottleController.Take` | src/controller/message_throttle.rs:757-771 | charges the cluster, the resource and the instance, and nothing else |
| `ThrottleCycle.ComputeRequired` | src/controller/message_throttle.rs:496-545 | the two passes compute the required counts of a partition |
| `ThrottleCycle.Classify` | src/controller/message_throttle.rs:547-569 | crossing replicas off the required counts one by one decides recovery exactly when fewer replicas hold the target state than required |
| `ThrottleCycle.ChargePending` | src/controller/message_throttle.rs:791-827 | charges the pending steps whose replica is still at their source, with an effect that does not depend on the partition and message order of the visits |
| `ThrottleCycle.ApplyPending` | src/controller/message_throttle.rs:659-681 | applies the resource's pending steps in order, DROPPED removing the replica |
| `Intermediate.ChargesCommute` | src/controller/message_throttle.rs:757-827 | the order of charges never matters |
| `Intermediate.IntermediateIsOverlay` | src/controller/message_throttle.rs:335-424 | for a resource with selected work the three passes leave dispatched steps over pending ones over current states, with DROPPED targets gone |
| `Intermediate.ThrottlingIsSound` | src/controller/message_throttle.rs:318-398 | under every cluster, resource and instance quota of every type, new work is at most the limit minus the charged pending work, floored at zero |
| `Conservation.ThrottlingConservesWork` | src/controller/message_throttle.rs:356-398 | a selected step that is neither dispatched nor pending has a turn in the partition and message orders; when that turn came, after exactly the dispatches considered before it, some quota covering the step was exhausted for the class it had at that moment or for any class, and that same quota still is at the end of the cycle |
| `Conservation.DispatchesAreClassified` | src/controller/message_throttle.rs:373-396 | every dispatch is charged as recovery or load by the replicas its partition has once the earlier dispatches of its resource are applied |
| `Intermediate.DispatchedWork` | src/controller/message_throttle.rs:361-398 | only selected steps that are not already pending are dispatched |
| `ThrottleOrder.MessageOrderIsTotal` | src/controller/message_throttle.rs:624-657 | the message comparator is a total order on a partition's selected steps when there is one per replica and targets are model states |
| `ThrottleOrder.CycleForgetsOrder` | src/controller/message_throttle.rs:352-424 | the dispatch sequence, the remaining quotas and the intermediate states do not depend on the order in which each resource's selected steps are supplied |
| `ThrottleLaws.LastLimitWins` | src/controller/message_throttle.rs:691-738 | a cycle starts, for each known scope and type, from the last configured limit that speaks about them, and has no other quota |
| `ThrottleLaws.LsRequired` | src/controller/message_throttle.rs:496-545 | a LeaderStandby partition with live candidates needs one leader and, of its other candidates and replicas, the fewer as standbys |
| `ThrottleLaws.CrossedOffIsOverlap` | src/controller/message_throttle.rs:588-608 | the second ordering key counts the states the current and target replicas have in common, whichever replicas hold them |
| `ThrottleLaws.PartitionsInPriorityOrder` | src/controller/message_throttle.rs:571-622 | each partition is considered once: those with a replica in the top state first, then those whose states have less in common with their target states, then those with fewer replicas at their own target, then by identifier |
| `ThrottleLaws.MessagesInPriorityOrder` | src/controller/message_throttle.rs:624-657 | within a partition, steps into higher states come first; equal targets go by first place on the preference list, with instances off the list before those on it and by identifier among themselves |
| `ThrottleLaws.IdleResourceReportsTarget` | src/controller/message_throttle.rs:345-354 | a resource without selected work reports its best-possible states |
| `ThrottleLaws.CycleReportsOverlay` | src/controller/message_throttle.rs:335-430 | any other resource reports, at the end of the whole cycle, what was dispatched over what is pending over its current states |
| `ThrottleCycle.ComputeIntermediateAndThrottle` | src/controller/message_throttle.rs:267-431 | succeeds exactly on unique resources, known and unique pending steps and well-placed selected steps, each error naming a true cause (the doubled resource or pending replica itself), and computes the specified dispatch sequence and states |
| `Planning.NormalizedAt` | src/controller/runtime.rs:993-1027 | the planning state of a replica is its live state, else the initial state for a live preferred replica, else none |
| `Reconcile.NormalizeCurrent` | src/controller/runtime.rs:993-1027 | the duplicate-refusing builder never refuses and yields exactly those states |
| `Pipeline.BestAt` | src/controller/runtime.rs:755-770 | best-possible states have exactly the replicas of the planning states, leader and standbys at the live preferred ones and DROPPED elsewhere |
| `Pipeline.PlanKeepsReplicas` | src/controller/message_generation.rs:79-104 | so generation never errors on them |
| `Pipeline.CandidatesAreSelectable` | src/controller/message_selection.rs:71-95 | and selection and throttling accept every generated candidate |
| `Pipeline.SelectedIsDue` | src/controller/runtime.rs:755-796 | a step is selected exactly when it is its replica's next hop to its target and, for a promotion, no replica leads and nothing pending leads or stops leading |
| `Allowance.PlannedClass` | src/controller/message_throttle.rs:496-569 | in a planned cycle a step counts as recovery exactly when its partition, as earlier dispatches leave it, has no leader though a preferred replica is live, or fewer standbys than its other live preferred replicas, and the step fills that gap |
| `Allowance.CycleClasses` | src/controller/message_throttle.rs:373-396 | every dispatch of a cycle is charged accordingly |
| `Reconcile.RetainPending` | src/controller/runtime.rs:1029-1086 | keeps exactly the messages of a live session whose replica has not moved, whose partition is placed or present and, after a session replacement, whose direction fits the placement |
| `Reconcile.OperationalPending` | src/controller/runtime.rs:729-753 | the retained steps that take part in planning, fewer after a session replacement |
| `Reconcile.PlanResource` | src/controller/runtime.rs:755-796 | of the stages only selection can fail, and only because of work in flight |
| `Reconcile.PushDispatched` | src/controller/runtime.rs:690-720 | adds a message per dispatched step unless its replica is taken, reusing the identity of a published message for the same step and session |
| `Reconcile.ComputeOutputs` | src/controller/runtime.rs:643-724 | the cycle yields the external view and the next queue, sorted and without repetitions, or selection's error exactly when some work in flight is of an unknown partition or doubled; what that queue holds is stated by the four rows below |
| `Cycle.KeptUnlessOutdated` | src/controller/runtime.rs:1029-1086 | a queued message is kept exactly unless its session, resource or partition is gone, its replica has moved, or, after a session replacement, it leads away from the placement |
| `Cycle.PlannedAround` | src/controller/runtime.rs:729-753 | kept messages are planned around, except, after a session replacement, removals of replicas off the list of a partition that has one |
| `Allowance.CycleFitsLimits` | src/controller/runtime.rs:671-687 | except for a controller's first, a cycle dispatches, in every scope of the snapshot and for every type, at most the last configured limit less the charged work in flight, floored at zero |
| `Allowance.NextQueueFitsLimits` | src/controller/runtime.rs:671-720 | the next queue is the kept messages followed by messages for some of the dispatched steps, in order, which fit those limits too |
| `Reconcile.PublishedIsArranged` | src/controller/runtime.rs:721-722 | whatever the order of messages, sorting and removing repetitions keeps exactly the messages of the next queue |
| `Reconcile.ExternalViewShows` | src/controller/runtime.rs:820-855 | the external view shows exactly the states of live, configured replicas |
| `Cycle.DispatchedIsSelected` | src/controller/runtime.rs:676-690 | everything dispatched was selected and is not already in flight |
| `Cycle.PlansAreAcceptable` | src/controller/message_throttle.rs:267-431 | throttling accepts whatever the planning stages hand it |
| `Cycle.CycleSucceedsIff` | src/controller/message_selection.rs:96-128 | a cycle over a published queue succeeds exactly when no retained step up belongs to a partition without a preference list, and always after a session replacement |
| `Cycle.StrandedStepStopsTheCycle` | src/controller/message_selection.rs:99-114 | such a message does stop a cycle |
| `Cycle.PublicationKeepsQueue` | src/controller/runtime.rs:688-721 | every published queue has one message per replica, distinct identities, sessions live in its snapshot, and direct edges; new messages are dispatched steps with identities of the snapshot's revision, and only for steps and sessions that had no message |
| `Quiescence.SilentIffSettled` | src/controller/runtime.rs:643-724 | with nothing in flight and positive limits, a cycle dispatches nothing exactly when in every partition the replica at the first live position of the preference list leads, those at its other live positions stand by and no other replica is left |
| `Settling.DispatchKeeps` | src/controller/runtime.rs:755-796 | whatever a cycle keeps and adds, each step in flight fits its replica, promotions are alone and the first leader of a partition with a cold first choice is left in place |
| `Settling.DispatchKeepsMeasure` | src/controller/runtime.rs:755-796 | no cycle raises the number of transitions a partition may still need |
| `Settling.CompletionLowersMeasure` | src/participant.rs:1065-1164 | every completed transition lowers it |
| `Convergence.ConvergenceIsLinear` | src/controller/runtime.rs:643-724 | with fixed inputs and no failing handler, in any interleaving of cycles of any mode, completions and withdrawn messages, a partition performs at most three transitions per replica plus two |
| `Convergence.RestMeansSettled` | src/controller/runtime.rs:643-724 | such a run can come to rest only with every partition settled |
| `Settlement.CalmStep` | src/controller/runtime.rs:390-483 | every protocol step that changes no input is, to the cluster, a cycle on the state in force, a completion, a withdrawal or nothing |
| `Guarantees.ProtocolSettles` | src/participant.rs:980-1164 | from any point of any run with nothing in flight, live instances configured and no replica in error, as long as inputs stay fixed and no handler fails, whatever failovers, stale snapshots and crashed workers occur, a partition's completed transitions stay within three per replica plus two |
| `Guarantees.ProtocolRestIsSettled` | src/controller/runtime.rs:390-483 | and once nothing is in flight and a cycle would publish nothing, every partition of the store has its leader, its standbys and no stray replica |
| `Freshness.FenceMeansCurrent` | src/coordination/etcd/metadata.rs:231-352 | when the publication fence holds, the held snapshot and queue are those in force |
| `Freshness.StepsAreMarked` | src/coordination/etcd/mod.rs:915-1019 | every step but a lost lease leaves the authoritative inputs alone or moves the marker, and leaves the queue alone or moves its revision |
| `Freshness.HeldInvKept` | src/controller/runtime.rs:390-483 | a controller's snapshot stays good or is overtaken by the marker or the queue revision |
| `Freshness.ArrangedKeepsQueue` | src/controller/runtime.rs:688-722 | the queue invariant of a publication holds in whatever order its messages are stored |
| `Freshness.QueueInvKept` | src/controller/runtime.rs:688-721 | every step keeps the queue well formed and apart from every identity that ever left it |
| `Guarantees.PublicationsAreCurrent` | src/controller/runtime.rs:390-483 | in every run, every accepted publication is by the authority in force, holds the messages computed from the inputs and queue in force at its commit, and records those inputs as processed |
| `Guarantees.PublicationsFitLimits` | src/controller/runtime.rs:671-724 | in every run, what a publication adds to the messages it keeps fits the throttles in force at its commit, except for a controller's first cycle |
| `Guarantees.ProcessedNeverRegresses` | src/coordination/etcd/metadata.rs:231-352 | in every run the processed revision never goes back and never passes the inputs |
| `Guarantees.IdsNeverComeBack` | src/controller/runtime.rs:690-720 | in no run does a completed or removed message identity return to the queue |
| `Guarantees.MessagesLeaveFor` | src/controller/runtime.rs:1029-1086 | in every run a message leaves the queue only by its own completion or cleanup, or by a publication for which it is outdated |
| `Guarantees.QueueChanges` | src/coordination/etcd/mod.rs:915-1019 | in every run the queue changes only by a publication, to the published messages, and by a completion or cleanup, which removes that message and no other |
| `Guarantees.MembershipChanges` | src/coordination/etcd/session.rs:159-217 | in every run live sessions change only by registration, expiry and revocation of the instance named, and configured instances, placement and throttles only by their own writes |
| `LeaderSafety.ExclusionKept` | src/participant.rs:989-1006 | a worker starts only on a key that is not registered as in flight, and a key is given back only by the worker that registered it, so no step makes two workers share a key |
| `Guarantees.WorkersExcludeEachOther` | src/participant.rs:989-1056 | in every state of every run no two workers are at work under one key |
| `Guarantees.KeysAreGivenBack` | src/participant.rs:1053-1056 | a worker that ends gives its own key back, and no other |
| `Guarantees.CompletionsAreFaithful` | src/participant.rs:1065-1164 | in every run, with any number of workers and whatever messages they were handed, a message changes CurrentState only while its session is live and with its replica at the state it starts from, because no other worker can move the replica between the check and the completion, and it, and no other message, leaves the queue at once |
| `Guarantees.CurrentStateChanges` | src/participant.rs:1100-1164 | in every run CurrentState changes only by a completion, under the worker's own key, to ERROR if the handler failed, to the target if it succeeded, and to no entry if the target is DROPPED; or by a registration, which writes exactly its new session's initial states |
| `Guarantees.CompletionsHappenOnce` | src/participant.rs:1053-1160 | in every run any two completions are of different messages |
| `LeaderSafety.PublicationKeepsClaims` | src/controller/message_selection.rs:130-185 | a publication adds no second leader or promotion to a partition and promotes only configured instances |
| `LeaderSafety.CompletionKeepsClaims` | src/coordination/etcd/mod.rs:915-985 | a completion moves a claim from the queue to CurrentState or drops it, counting every queued promotion |
| `LeaderSafety.EnrolmentKeepsClaims` | src/coordination/etcd/session.rs:159-217 | a new session whose carried partitions start at any state but LEADER adds no leader, and no queued promotion becomes its own |
| `Guarantees.AtMostOneLeader` | src/controller/runtime.rs:643-724 | in every state of every run from an empty cluster, a partition's live leaders and queued promotions, of live and of lost sessions alike, number at most one |
| `Availability.FreshPublicationIsAccepted` | src/controller/runtime.rs:390-483 | from any state of any run the authority in force can read and then publish what it computes, in any mode, unless the cycle itself fails |
| `Availability.QueuedWorkCanComplete` | src/participant.rs:980-1164 | from any state of any run a queued message of a live session whose replica is at its start and free can be delivered, checked, claimed and completed, with its outcome written |
| `Visibility.StartupDispatchesAll` | src/controller/runtime.rs:671-687 | a controller's first cycle dispatches exactly what is selected and not in flight |
| `Visibility.DeconfiguringALeaderIsUnsafe` | src/admin.rs:178-213 | without the live-instance guard of instance removal, the next cycle would promote a second leader |
| `Election.WinnerIsFirst` | src/election.rs:368-414 | a candidate that takes the active record has the smallest create revision of all registered |
| `Election.ElectionIsFifo` | src/election.rs:282-464 | this holds at every winning transaction of every run, although predecessors are checked only at read time |
| `Election.WinsIncrease` | src/election.rs:282-464 | over every run winning create revisions increase and no lease wins twice |
| `Election.FirstInLineCanWin` | src/election.rs:282-464 | in every state of every campaign the first registered candidate can win once there is no active record, or be dropped if its lease is spent; an active record can be given up by its holder, and dropped once its lease is spent or given up |
| `Election.SupersededNeverWrites` | src/election.rs:480-517 | once an authority has lost the active record, no later controller-owned write carries its lease, even if the same controller is re-elected |
| `Frontier.SettleIsMaximal` | src/participant.rs:85-111 | completing drops exactly the longest finished run of first revisions, judged without pruning, and forgets only identities no remaining revision mentions |
| `Frontier.ReturnedMeansCompleted` | src/participant.rs:69-111 | over every history a returned revision means every message observed at or below it has been completed |
| `Frontier.FirstRevisionIsUnfinished` | src/participant.rs:85-111 | after each completion the smallest tracked revision has unfinished work |
| `Frontier.FrontierNeverRegresses` | src/participant.rs:69-111 | the frontier never goes back as long as no observation is below it |
| `Frontier.CompletionState.Observe` | src/participant.rs:78-83 | adds the identities to the revision's set |
| `Frontier.CompletionState.Complete` | src/participant.rs:85-111 | the in-place pop loop computes the specified result and frontier |
| `Sessions.ReachedIsValid` | src/model/session.rs:118-202 | every reachable state numbers sessions in order, ties records to known owners and keeps live sessions newest |
| `Sessions.LiveSessionIsNewest` | src/model/session.rs:118-166 | in every reachable state the live session is its instance's newest |
| `Sessions.SessionsIncrease` | src/model/session.rs:229-237 | a new session is later than every session known before it |
| `Sessions.SessionsAreKept` | src/model/session.rs:229-237 | sessions are never forgotten or given to another instance |
| `Sessions.StaleWritesAreInvisible` | src/model/session.rs:168-227 | a write under any session but the live one never changes the snapshot |
| `Sessions.PublishIsVisible` | src/model/session.rs:168-296 | a write under the live session shows exactly the published states over what was there, and changes nothing else |
| `Sessions.ParticipantSessionState.SetResourceInitialState` | src/model/session.rs:112-115 | later carried partitions of the resource start from the new initial state |
| `Sessions.CarriedAtInitial` | src/model/session.rs:118-165 | right after a connection or expiry the new session holds exactly the partitions of its instance's newest session, or of the expired one, each at the initial state set for its resource or else the default, and no other instance changes |
| `Sessions.FirstSessionIsEmpty` | src/model/session.rs:118-134 | an instance that never had a session starts with nothing |
| `Sessions.ParticipantSessionState.Connect` | src/model/session.rs:118-134 | connects with carried states, or fails without a change when already live or out of session numbers |
| `Sessions.ParticipantSessionState.Disconnect` | src/model/session.rs:137-145 | removes the live session only for its own session, keeping its records |
| `Sessions.ParticipantSessionState.ExpireAndReconnect` | src/model/session.rs:148-165 | replaces the live session and carries the expired one's partitions |
| `Sessions.ParticipantSessionState.PublishCurrentState` | src/model/session.rs:168-177 | merges states only under the live session, and otherwise reports which live session it met, if any |
| `Sessions.ParticipantSessionState.InjectSessionCurrentState` | src/model/session.rs:183-202 | merges states under any session the instance ever owned, and otherwise reports an unknown session or its owner |
| `Sessions.ParticipantSessionState.CarryRecords` | src/model/session.rs:298-336 | resets the instance's own states to each resource's initial state |
| `Crush.Build` | src/rebalance/crush.rs:221-276 | builds a tree of exactly the given instances, in unique zones, whose weights are at every level the node weight times the live leaves below |
| `Crush.FindNode` | src/rebalance/crush.rs:365-405 | a search finds exactly the first draw that is of the wanted type, below the parent, available and neither selected nor excluded; it escapes exactly when it would return to the parent for the fifty-first time before that |
| `Crush.UnavailableIffDead` | src/rebalance/crush.rs:221-276 | a node of a built tree is unavailable exactly when no live leaf is below it |
| `Crush.ShortByEscapes` | src/rebalance/crush.rs:357-412 | a selection is short by exactly the ranks whose searches escaped |
| `Crush.SelectNodesOfType` | src/rebalance/crush.rs:357-412 | distinct such nodes, those found at ranks one to the requested number, in order |
| `Crush.AddReplicas` | src/rebalance/crush.rs:318-355 | an attempt adds the leaves its draws give, live and at most one per zone over all attempts |
| `Crush.SelectReplicas` | src/rebalance/crush.rs:298-316 | at most the requested number of distinct live leaves, one per zone: those of up to ten attempts, none made once there are enough |
| `Crush.ShortAfterAllAttempts` | src/rebalance/crush.rs:298-316 | a selection that is short has made all ten attempts, each from a new hash |
| `Crush.FlatFirstDraws` | src/rebalance/crush.rs:298-412 | without zones, distinct live leaves at the draws of ranks one to the number of replicas are the selection, in that order |
| `Crush.ZonedFirstDraws` | src/rebalance/crush.rs:298-412 | with zones, distinct zones at those draws whose own first draws are live leaves select those leaves, in that order |
| `Crush.ComputeAssignment` | src/rebalance/crush.rs:149-198 | errors exactly on empty or doubled partitions or instances or unknown live ones, each naming a true cause and never the non-instance error; otherwise, for any child-choosing function, every list holds the instances selected for its partition's hash from the tree of the instances, distinct, live and at most one per fault zone |

## Left out

- Crush.FindNode: draws are bounded by a fuel parameter, so a rejection loop that never ends is reported as no answer; everything proved is about selections that return.
- Crush.ComputeAssignment: takes the child-choosing function, the rehash and the partition hash as parameters; straw lengths, Jenkins, Java and SHA-1 hashing are not modelled, and nothing is said of the list of a partition whose draws do not end.
- Reconcile.ComputeOutputs: the order of messages and the order of state names it rests on are a parameter; every result holds for any order.
- Reconcile.PushDispatched: message identities are pairs of snapshot revision and rank; their text form is not modelled.
- Choice of cycle mode (`ControllerState`): any mode may be used in any cycle, so every result holds whatever the controller remembers about sessions.
- Decoding of metadata and placement records: preference lists are a function of the stored placement and of the configured and live instances; malformed records are not modelled.
- Registration options that carry partitions into a session at LEADER: the options allow it and the runtime never sets them, so in the protocol carried partitions start at any other state.
- Library calls that write CurrentState or queue entries directly, outside the runtime's own transactions.
- Resource deletion, which the administrative interface disables.
- Lease timing, keepalives, watches, retry limits and lost responses: lease loss, stale reads and repeated attempts are steps that may happen at any point.
- Effects of application handlers beyond success or failure, and their cancellation.
- The skipping of empty observations before they reach the completion state.
- Machine integer width of counters, weights and revisions, except the session sequence.
- Sessions.ParticipantSessionState.CarryRecords: records are kept in one map by instance and session instead of nested maps.
- Routing snapshots, external-view lookups, observers and events: they filter or forward maps the model already contains and feed nothing back into planning.

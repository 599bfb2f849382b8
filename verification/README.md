# Klyshko: a verified model

Klyshko generates correlated randomness (tuples) for multi-party computation. N virtual cloud providers (VCPs) run one
Kubernetes operator each and share an etcd store. This project models the parts of the repository whose correctness
spans several functions or several machines, and proves what they promise.

**The roster protocol** (modules `EtcdLog` and `Roster...`). Player 0 publishes a job as a roster in etcd; every VCP
learns of it through a watch, creates its own job, local task and roster entry, moves the entry through Preparing,
Launching, Generating, Provisioning to Completed or Failed, mirrors the entries of the others as proxy tasks, derives a
job state and activates the tuple chunk. etcd is a log of events, its values are folds of the log. Each VCP has
resources per job, a program counter for each reconciler and one for its watcher; every step does at most one write to
etcd, Kubernetes or Castor, so reconcilers, watchers, pods and load balancers of all VCPs interleave freely, API calls
fail, single tasks cannot be read and operators crash between any two writes. Every sequence of actions is a run; N and
the number of jobs are arbitrary.

- `RosterSafety` and `RosterTheorems`: safety in every run. `RosterEndpoints`: how many endpoints a player publishes.
- `RosterReplay`: the watcher, in runs in which no watch handler fails.
- `RosterClean` and `RosterConvergence`: steady states, in which watchers have caught up with what they had dispatched;
  and what happens from there on as long as no fault occurs. A run without any fault is called clean: no handler fails,
  no watch is torn down, no operator crashes and reconcilers can read their own task. API calls may fail all the same.
- `RosterSupport`, `RosterSettle`, `RosterRest` and `RosterFinish`: recovery. Every run in which no handler has failed,
  with any crashes, replays and failing calls, leads to a steady state, from there to a state of rest, and can be
  finished.
- `Passes`: what one undisturbed call of a reconciler or watch handler does, in terms of resources and stored values
  only.
- `Controllers`: the reconcilers and the watch loop as methods, in the shape of the source. Which API calls fail is an
  input (module `Calls`). Each call is proved to be a run, whatever fails; it gives up or loses an event only if an API
  call fails, and else does what `Passes` says.

The steps themselves are `RosterModel.JobStep` and `Aggregate` (tuplegenerationjob_controller.go, lines 69 to 230),
`TaskStep` and `ActStep` (tuplegenerationtask_controller.go, lines 86 to 245), `WatchStep` and `HandleEvent`
(tuplegenerationjob_controller.go, lines 296 to 518) and `Endpoint` (tuplegenerationtask_controller.go, lines 823 to 840).

**Keys, names and the head revision** (`Text`, `EtcdKeys`, `TaskNames`, `HeadRevision`) on which the protocol rests.

**Scheduling** (`Filters`, `Lottery`, `Scheduler`, `SchedulerRuns`): the lottery with in-flight accounting, the
scheduler, again with failing calls as an input, and its runs with reads that are not atomic.

**The seed and key share exchange** of the trusted-execution generator (`HexSeed`, `Exchange`, `ExchangeResult`,
`Generator`) for any number of players.

`dafny verify dfyconfig.toml` checks everything.

What the proofs revealed about the code:

- A player can publish two endpoints for a job: if its own task cannot be read while endpoints are collected, the
  reconciler stores the current address of the load balancer over the published one
  (`RosterEndpoints.TwoEndpointsHappen`; `TwoEndpointsIff` says exactly when). Outcome agreement, activation safety and
  the life cycle of pods do not depend on it.
- A job whose id is not a UUID never completes: with all its entries Completed on all VCPs the reconciler returns an
  error every time, before it activates the chunk or stores a state (`RosterRest.RestMeansDone`). Schedulers choose
  UUIDs; users may choose any id.
- Three or more players end the exchange with different seeds in general (`ExchangeResult.AllAgreeIff` says for which
  seeds they agree). The run script admits two players only, and two always agree.
- The lottery can draw a number without a winner exactly if an eligible tuple type has several telemetry rows: all of
  them count towards the draw range, but only one hands out tickets (`Lottery.EveryDrawWinsIff`, `TicketWithoutWinner`).
  Then a scheduler may create no job although there is a type to create one for (`Scheduler.EveryDrawSelectsIff`).
- A task named with leading zeros in the player number is taken for the local task although it is not
  (`TaskNames.RedirectedName`, `LeadingZeroIsKept`).
- The stock bound depends on listing jobs before reading telemetry (`SchedulerRuns.SwappedReadsExceedBound`).
- A head revision of 2^55 or more would make the operator panic (`HeadRevision.HeadStore.SetHeadRevision`).

Assumptions of the roster model: Kubernetes reads that succeed are fresh; 0 <= player id < player count; a job stands
for a namespace and a name, job names are unique across namespaces and consist of the characters of the key pattern;
specifications do not change, and the generator they name exists; users delete nothing; jobs are submitted on VCP 0; the
header revision of a watch response covers everything delivered up to it, and etcd answers a watch only with at least
one event. Each reconciler, and the watcher, is serialised with itself.

## Model

| member | source | states |
|---|---|---|
| `RosterTheorems.OutcomeAgreement` | klyshko-operator/controllers/tuplegenerationjob_controller.go:197-226 | in no run, whatever crashes, replays, lost events and interleavings it contains, does one VCP complete a job that another one fails, not even at different times |
| `RosterTheorems.ActivationSafety` | klyshko-operator/controllers/tuplegenerationjob_controller.go:197-226 | a chunk is activated only if all N roster entries are Completed, and they stay so in every continuation, and only for a job whose id is a UUID; a job is Completed only after its own chunk was activated |
| `RosterTheorems.SpecAgreement` | klyshko-operator/controllers/tuplegenerationjob_controller.go:104-126 | any two VCPs that have a job have it with the same specification; it is the one in the roster of player 0 as soon as that exists, and it exists if any other VCP has the job |
| `RosterTheorems.Causality` | klyshko-operator/controllers/tuplegenerationjob_controller.go:86-126 | a job has one roster PUT, it precedes every entry PUT of the job, and the clean-up branches of both reconcilers never delete anything as long as users delete nothing |
| `RosterTheorems.EntryLifeCycle` | klyshko-operator/controllers/tuplegenerationtask_controller.go:143-243 | all values a roster entry ever has start at Preparing, follow the coded transitions, never leave Completed or Failed, and agree on the endpoint from Launching on |
| `RosterTheorems.LegalLifeShape` | klyshko-operator/controllers/tuplegenerationtask_controller.go:143-243 | along a legal life stages strictly rise, except that a Preparing entry may get another endpoint; an endpoint never disappears and stays as it is from Launching on; nothing follows a terminal value |
| `RosterTheorems.PodLifeCycle` | klyshko-operator/controllers/tuplegenerationtask_controller.go:194-237 | although the operator may crash between creating a pod and recording the state, at most one generator and one provisioner pod are created; the stage tells which pods exist and have succeeded, and the claim exists from Launching to Provisioning |
| `RosterEndpoints.TwoEndpointsIff` | klyshko-operator/controllers/tuplegenerationtask_controller.go:158-193 | in every run, a player publishes two endpoints for a job exactly if, in some step, its reconciler collects endpoints without being able to read its own task although its endpoint is published, the load balancer has another address, and the next step of that reconciler, uninterrupted, stores it |
| `RosterEndpoints.TwoEndpointsHappen` | klyshko-operator/controllers/tuplegenerationtask_controller.go:777-793 | for every number of VCPs a run in which player 0 publishes a:5000 and then b:5000 |
| `RosterEndpoints.EndpointAgreement` | klyshko-operator/controllers/tuplegenerationtask_controller.go:513-539 | unless that happens a player publishes at most one endpoint, crashes or not, and generator pods of any two VCPs that list the player list it with this one |
| `RosterEndpoints.PodListsPublished` | klyshko-operator/controllers/tuplegenerationtask_controller.go:513-539 | in every run generator pods list endpoints that their players have published |
| `RosterEndpoints.TickReplaces` | klyshko-operator/controllers/tuplegenerationtask_controller.go:158-193 | after a step a reconciler is about to replace a published endpoint exactly if it missed its own task in that step and the address has changed |
| `RosterTheorems.ProxiesShowHistory` | klyshko-operator/controllers/tuplegenerationjob_controller.go:409-473 | in every run a task shows the unset status of a new resource or a value etcd has held for that player |
| `RosterSafety.Reachable` | klyshko-operator/controllers/tuplegenerationjob_controller.go:69-230 | the invariant of all VCPs, logs, reconcilers and watchers holds after every sequence of actions |
| `RosterSafety.JobStepKeeps` | klyshko-operator/controllers/tuplegenerationjob_controller.go:69-230 | one step of the job reconciler puts at most one event that is legal at that point of the log and keeps the invariant of its VCP |
| `RosterSafety.TaskStepKeeps` | klyshko-operator/controllers/tuplegenerationtask_controller.go:60-245 | the same for a step of the task reconciler |
| `RosterSafety.AggregateSound` | klyshko-operator/controllers/tuplegenerationjob_controller.go:159-205 | N owned tasks with distinct players cover every player, so Completed or Failed derived from possibly outdated tasks is what all, or some, stored entries say |
| `RosterSafety.AggregateSays` | klyshko-operator/controllers/tuplegenerationjob_controller.go:193-205 | exactly one of these is so of the tasks of a job, and is the state decided on: Pending with fewer than N, Running with N of which one has not ended, Failed with all ended and one Failed, Completed with all Completed, the last only if the job is not Completed yet |
| `RosterSafety.EndpointIs` | klyshko-operator/controllers/tuplegenerationtask_controller.go:823-840 | an address exactly if the service is a load balancer with an ingress point whose IP or else hostname is not empty, namely that one; none yet exactly if it is a load balancer without ingress points; an error otherwise |
| `RosterSafety.OthersFrame` | klyshko-operator/controllers/tuplegenerationjob_controller.go:69-230 | an event put by one VCP for one job leaves the invariant of all other VCPs, jobs and watchers intact |
| `RosterSafety.OperatorStepKeeps` | klyshko-operator/controllers/tuplegenerationjob_controller.go:296-336 | receiving, dispatching, storing the head, losing an event, reconnecting and crashing keep the invariant |
| `RosterTheorems.Delivery` | klyshko-operator/controllers/tuplegenerationjob_controller.go:296-336 | every roster event at or below the stored head was dispatched, and the head never decreases |
| `RosterTheorems.NoSkip` | klyshko-operator/controllers/tuplegenerationjob_controller.go:320-334 | the count of dispatched events moves by one, and only when the watcher is at the first event not dispatched yet |
| `RosterTheorems.FaultsLoseNoResource` | klyshko-operator/controllers/tuplegenerationjob_controller.go:296-334 | a failed call, a lost event, a broken watch or a crash changes neither etcd nor any resource; what was read is lost and, of a lost event, what it would have changed |
| `RosterTheorems.CaughtUpTables` | klyshko-operator/controllers/tuplegenerationjob_controller.go:296-336 | after any number of crashes and replays, a watcher that has caught up has exactly the jobs and proxies of one in-order pass |
| `RosterTheorems.JobLookupSucceeds` | klyshko-operator/controllers/tuplegenerationjob_controller.go:416-424 | unless a handler failed before, the job of an entry event exists when the event is handled |
| `RosterReplay.TablesReachable` | klyshko-operator/controllers/tuplegenerationjob_controller.go:296-336 | the relation of every proxy to the slices of the log before, in and after the running watch holds after every run without handler failures |
| `RosterReplay.RestartProxy` | klyshko-operator/controllers/tuplegenerationjob_controller.go:302-318 | a watch registered anew from the stored head loses nothing: what will not be replayed is up to date |
| `EtcdLog.ReplayIdempotent` | klyshko-operator/controllers/tuplegenerationjob_controller.go:302-318 | replaying any suffix of a legal log on top of it changes no stored value |
| `EtcdLog.HeldIsOvertaken` | klyshko-operator/controllers/tuplegenerationtask_controller.go:143-243 | a value etcd ever held for a player is still there or overtaken by a later stage or, while Preparing, by another endpoint; endpoints never disappear and stay from Launching on; terminal values are still there |
| `RosterClean.ProxiesRefineLog` | klyshko-operator/controllers/tuplegenerationjob_controller.go:409-473 | in clean runs a proxy is at any time the fold of the log up to the events handled, although it is created as Preparing whatever the event says |
| `RosterClean.GeneratorsKnowAllEndpoints` | klyshko-operator/controllers/tuplegenerationtask_controller.go:513-539 | in clean runs every generator pod gets the published endpoints of all N players, and they never publish others |
| `RosterClean.SteadyReachable` | klyshko-operator/controllers/tuplegenerationjob_controller.go:69-230 | every state of a clean run is steady: watchers have caught up, a job is Running or further only with all N tasks there and ended only with all of them ended, an entry is past Preparing only with all endpoints known |
| `RosterClean.TablesMoveForward` | klyshko-operator/controllers/tuplegenerationjob_controller.go:193-226 | between any two states of a clean run no task or endpoint disappears, no outcome changes and no job goes back |
| `RosterClean.CleanStep` | klyshko-operator/controllers/tuplegenerationjob_controller.go:69-230 | steady states stay steady as long as no fault occurs, even if there have been faults before |
| `RosterConvergence.Progress` | klyshko-operator/controllers/tuplegenerationtask_controller.go:143-243 | in steady states every step of a VCP that changes anything in etcd, Kubernetes or Castor lowers a natural number that no other step raises |
| `RosterConvergence.WritesFromSteady` | klyshko-operator/controllers/tuplegenerationtask_controller.go:143-243 | from a steady state on, until the next fault, the number of such steps is bounded by that number |
| `RosterConvergence.FinitelyManyWrites` | klyshko-operator/controllers/tuplegenerationtask_controller.go:143-243 | the number of such steps in a clean run is bounded by a number that depends on the numbers of VCPs and jobs only |
| `RosterSupport.SupportReachable` | klyshko-operator/controllers/tuplegenerationjob_controller.go:159-205 | in every run, crashes, replays and lost events included, a job state or entry stage claims no more than the events dispatched so far support: Completed or Failed only with the entries of all others ended in them, an entry past Preparing only with their endpoints published in them |
| `RosterSettle.Settles` | klyshko-operator/controllers/tuplegenerationjob_controller.go:296-336 | from every state of a run in which no handler has failed, operator steps lead to a steady state |
| `RosterRest.QuietIsReachable` | klyshko-operator/controllers/tuplegenerationjob_controller.go:69-336 | from every state of a run in which no handler has failed, crashes and replays included, operator steps lead to one in which no sequence of operator steps changes anything |
| `RosterRest.RestMeansDone` | klyshko-operator/controllers/tuplegenerationjob_controller.go:197-226 | in such a state, once pods have ended and load balancers have addresses, every job of player 0 is Failed on all VCPs if an entry is, else Completed and activated on all VCPs if its id is a UUID, else open everywhere with all entries Completed |
| `RosterFinish.EveryRunCanFinish` | klyshko-operator/controllers/tuplegenerationjob_controller.go:69-230 | every run with a job of player 0 in which no handler has failed can be continued, by undisturbed operator steps, pods ending and addresses given, to one in which that is so of the job |
| `RosterRest.StuckTask` | klyshko-operator/controllers/tuplegenerationtask_controller.go:60-245 | a task reconciler that cannot change anything has a final entry or waits, its own endpoint published, for others |
| `RosterRest.StuckJob` | klyshko-operator/controllers/tuplegenerationjob_controller.go:69-230 | a job reconciler that cannot change anything has its roster and its local task, and the job state is what its tasks say, Pending and Running included; only a job without a UUID stays as it is when all tasks are Completed |
| `Controllers.Operator.ReconcileJob` | klyshko-operator/controllers/tuplegenerationjob_controller.go:69-230 | one call is a run of job steps on the old log and cell; it is cut short exactly if an API call fails, and else does what Passes.JobPass says of the resources; other jobs are untouched; re-queued only after creating the local task |
| `Controllers.Operator.EnsureRoster` | klyshko-operator/controllers/tuplegenerationjob_controller.go:104-126 | the roster exists afterwards, put by player 0 only, unless a call fails; the others wait for it |
| `Controllers.Operator.EnsureTask` | klyshko-operator/controllers/tuplegenerationjob_controller.go:127-150 | the local task is created if missing, else the state is updated; cut short exactly if a call fails |
| `Controllers.Operator.UpdateState` | klyshko-operator/controllers/tuplegenerationjob_controller.go:152-229 | list, derive, activate, store, in that order; unless a call fails the job has the state that its tasks say, and its chunk is activated before it completes; an error exactly if it would complete without a UUID |
| `Controllers.Operator.List` | klyshko-operator/controllers/tuplegenerationjob_controller.go:152-157 | every task of the cluster once |
| `Controllers.OwnedBy` | klyshko-operator/controllers/tuplegenerationjob_controller.go:159-173 | the listed tasks of the job, each once |
| `Controllers.AllTerminated` | klyshko-operator/controllers/tuplegenerationjob_controller.go:177-184 | whether all listed tasks are Completed or Failed |
| `Controllers.AnyFailed` | klyshko-operator/controllers/tuplegenerationjob_controller.go:185-192 | whether a listed task is Failed |
| `Controllers.DeriveState` | klyshko-operator/controllers/tuplegenerationjob_controller.go:193-205 | fewer than N listed tasks give Pending; N with one not ended Running; all ended and one Failed give Failed; all Completed give Completed, or no decision if the job is Completed |
| `Controllers.Operator.ReconcileTask` | klyshko-operator/controllers/tuplegenerationtask_controller.go:86-245 | one call is a run of task steps on the old log and cell; it is cut short exactly if an API call fails other than the reading of a task, and without a failing call it does what Passes.TaskPass says of the resources; other jobs are untouched |
| `Controllers.Operator.EnsureEntry` | klyshko-operator/controllers/tuplegenerationtask_controller.go:104-118 | the roster entry exists afterwards, put as Preparing if it was missing, exactly if no call fails |
| `Controllers.Operator.ProceedWithTask` | klyshko-operator/controllers/tuplegenerationtask_controller.go:119-143 | read the status, look up the job, refresh the task, act on the state read first |
| `Controllers.Operator.Prepare` | klyshko-operator/controllers/tuplegenerationtask_controller.go:144-193 | claim, service, then the decision on the endpoints |
| `Controllers.Operator.DecideOnEndpoints` | klyshko-operator/controllers/tuplegenerationtask_controller.go:164-193 | one step of the state machine; Launching exactly with the endpoints of all players known; else, with the own one unknown, the first IP or hostname of the load balancer with :5000 if there is one, and an error exactly if the service is no load balancer or its first ingress point is empty; else wait |
| `Controllers.Operator.TasksByPlayer` | klyshko-operator/controllers/tuplegenerationtask_controller.go:777-807 | the tasks of the job by player below the number of VCPs, without exactly those whose reading fails |
| `Controllers.CollectKnown` | klyshko-operator/controllers/tuplegenerationtask_controller.go:811-819 | the non-empty endpoints by player, in whatever order the map is visited |
| `Controllers.Operator.Launch` | klyshko-operator/controllers/tuplegenerationtask_controller.go:194-202 | create the pod if missing, then record Generating |
| `Controllers.Operator.CreateGeneratorPod` | klyshko-operator/controllers/tuplegenerationtask_controller.go:513-539 | an existing pod is kept; a new one lists the known endpoints and is created exactly if all N tasks are there and no call fails |
| `Controllers.Operator.AwaitGenerator` | klyshko-operator/controllers/tuplegenerationtask_controller.go:203-222 | Provisioning after success and a provisioner pod, Failed after failure, nothing otherwise |
| `Controllers.Operator.CreateProvisionerPod` | klyshko-operator/controllers/tuplegenerationtask_controller.go:417-481 | an existing pod is kept |
| `Controllers.Operator.AwaitProvisioner` | klyshko-operator/controllers/tuplegenerationtask_controller.go:223-237 | Completed after success, Failed after failure, nothing otherwise |
| `Controllers.Operator.ReclaimVolume` | klyshko-operator/controllers/tuplegenerationtask_controller.go:375-394 | unless the call fails, the claim is deleted if it is there, else it is an error; nothing else changes |
| `Controllers.Operator.SetStatus` | klyshko-operator/controllers/tuplegenerationtask_controller.go:312-330 | the status is put under the entry of the local player |
| `Controllers.Operator.HandleWatchEvents` | klyshko-operator/controllers/tuplegenerationjob_controller.go:296-336 | one round of the watch loop is a run of watcher steps; every event up to the last served response is dispatched; without a failing call all responses are served and the watch stays |
| `Controllers.Operator.HandleResponse` | klyshko-operator/controllers/tuplegenerationjob_controller.go:320-334 | all events of a response are dispatched in order, then its revision becomes the head, or the watch is torn down; without a failing call each event changes the resources as Passes.Handles says |
| `Controllers.Operator.HandleWatchEvent` | klyshko-operator/controllers/tuplegenerationjob_controller.go:340-407 | one event is one step of the watcher; it is lost exactly if a call fails; else a roster creates the job with its specification if there is none, the entry of another player updates or creates its proxy, the own entry changes nothing, and no other job is touched |
| `Controllers.Operator.HandleRemoteTaskUpdate` | klyshko-operator/controllers/tuplegenerationjob_controller.go:409-473 | without a failing call: with the job there, the proxy shows the stored status if it existed, else Preparing; without the job nothing changes. With one the event is lost: nothing has changed or the new proxy has no status. In any case the watcher is past the event and no other job is touched |
| `Controllers.Operator.CreateProxy` | klyshko-operator/controllers/tuplegenerationjob_controller.go:443-469 | the new proxy shows Preparing, or no status if the second write fails |
| `Controllers.Operator.SetHeadRevision` | klyshko-operator/controllers/tuplegenerationjob_controller.go:280-289 | the head becomes the revision, or the watcher reads it anew |
| `Controllers.JobCallIsRun` | klyshko-operator/controllers/tuplegenerationjob_controller.go:69-230 | a call of the job reconciler, successful or not, is a run of the whole system, so all results about runs hold after it |
| `Controllers.TaskCallIsRun` | klyshko-operator/controllers/tuplegenerationtask_controller.go:60-245 | the same for the task reconciler |
| `Controllers.WatchCallIsRun` | klyshko-operator/controllers/tuplegenerationjob_controller.go:296-336 | the same for the watch loop |
| `EtcdKeys.ParseOfPrint` | klyshko-operator/controllers/etcd_keys.go:32-101 | parsing inverts printing for both kinds of keys |
| `EtcdKeys.PrintOfParse` | klyshko-operator/controllers/etcd_keys.go:76-101 | an accepted string is a well-formed key and prints to itself exactly if the player id has no leading zeros |
| `EtcdKeys.AcceptedKeys` | klyshko-operator/controllers/etcd_keys.go:58-101 | accepted are exactly the strings of the pattern whose player id, if any, is below 2^32; which of the three errors it is otherwise |
| `EtcdKeys.KeysDiffer` | klyshko-operator/controllers/etcd_keys.go:32-51 | different keys, of either kind, have different strings |
| `EtcdKeys.KeyStrings` | klyshko-operator/controllers/etcd_keys.go:19-51 | the strings of a roster, of an entry and of a head |
| `EtcdKeys.NotWords` | klyshko-operator/controllers/etcd_keys.go:58 | names with dots, blanks or slashes, and empty ones, are not accepted |
| `EtcdKeys.MatcherIsExact` | klyshko-operator/controllers/etcd_keys.go:58-73 | the pattern determines its groups: there is one way to match, and the matcher finds it |
| `EtcdKeys.EtcdKeyParts` | klyshko-operator/controllers/etcd_keys.go:60-73 | the loop over the groups yields the namespace, the job name and, if there, the player id |
| `EtcdKeys.HeadsAreNotWatched` | klyshko-operator/controllers/tuplegenerationjob_controller.go:252-258 | head keys are outside of the watched prefix and differ between players |
| `TaskNames.NamesInvert` | klyshko-operator/controllers/utils.go:17-29 | job and player are recovered from a task name, hyphens and digit suffixes included |
| `TaskNames.AcceptedNames` | klyshko-operator/controllers/tuplegenerationtask_controller.go:258-272 | an accepted name is job, hyphen, numeral; it is the task's own name exactly if the numeral has no leading zero; recovering the job never panics |
| `TaskNames.TaskNamesDiffer` | klyshko-operator/controllers/utils.go:17-19 | different jobs or players have different task names |
| `TaskNames.Redirect` | klyshko-operator/controllers/tuplegenerationtask_controller.go:64-82 | at most one recursive call, which lands on the local player's task of the same job |
| `TaskNames.RedirectedName` | klyshko-operator/controllers/tuplegenerationtask_controller.go:64-82 | the name acted upon is the local task's own name unless the request named the local player with leading zeros |
| `TaskNames.LeadingZeroIsKept` | klyshko-operator/controllers/tuplegenerationtask_controller.go:64-82 | on player 0 the name a-00 is acted upon as it is, although the local task is a-0 |
| `HeadRevision.HeadStore.SetHeadRevision` | klyshko-operator/controllers/tuplegenerationjob_controller.go:280-289 | stores the revision, or panics and changes nothing, the latter exactly outside of -2^55 <= revision < 2^55 |
| `HeadRevision.HeadStore.GetHeadRevision` | klyshko-operator/controllers/tuplegenerationjob_controller.go:262-277 | reads the stored revision, 0 if there is none |
| `HeadRevision.PutUvarint` | klyshko-operator/controllers/tuplegenerationjob_controller.go:285-286 | the varint digits are written exactly if they fit the buffer |
| `HeadRevision.Uvarint` | klyshko-operator/controllers/tuplegenerationjob_controller.go:272-274 | the number is read back from its digits up to the first byte below 128; 0 if there is none or the number does not fit 64 bits |
| `HeadRevision.FitsBuffer` | klyshko-operator/controllers/tuplegenerationjob_controller.go:285-286 | a zig-zag varint fits 8 bytes exactly for 56-bit signed revisions |
| `HeadRevision.RevisionRoundTrip` | klyshko-operator/controllers/tuplegenerationjob_controller.go:262-289 | reading inverts writing for every revision |
| `HeadRevision.Varints` | klyshko-operator/controllers/tuplegenerationjob_controller.go:285-286 | the bytes of revisions 300 and -1 |
| `Lottery.LotteryIsExact` | klyshko-operator/controllers/scheduling_strategy.go:54-92 | for every order of visiting the eligible types, each wins with exactly as many draws as the priority in the last policy for it, and every draw has an eligible winner |
| `Lottery.EveryDrawWinsIff` | klyshko-operator/controllers/scheduling_strategy.go:54-92 | every draw has a winner exactly if no eligible type has two telemetry rows |
| `Lottery.TicketWithoutWinner` | klyshko-operator/controllers/scheduling_strategy.go:54-92 | two rows for one type of priority 1: the range is 2 and number 1 has no winner |
| `Lottery.WeightAgainstTotal` | klyshko-operator/controllers/scheduling_strategy.go:60-70 | the draw range equals the tickets handed out exactly under the same condition, else it is larger |
| `Lottery.Schedule` | klyshko-operator/controllers/scheduling_strategy.go:36-93 | the result is the winner of a draw from a non-empty range among the eligible types, none if there are none; the number drawn is the random one for the sum of weights |
| `Lottery.AddInFlight` | klyshko-operator/controllers/scheduling_strategy.go:44-51 | a job's tuples are added to the first row of its type, and only there; nothing changes if there is none |
| `Lottery.PoliciesByType` | klyshko-operator/controllers/scheduling_strategy.go:54-58 | every type that has a policy gets the last one |
| `Lottery.DrawTicket` | klyshko-operator/controllers/scheduling_strategy.go:78-90 | the loop returns the type whose range of tickets contains the drawn one |
| `Lottery.SelectedIsShort` | klyshko-operator/controllers/scheduling_strategy.go:43-70 | with one row per type, eligible means that available and in-flight tuples together are below the threshold |
| `Lottery.EligibleIsShort` | klyshko-operator/controllers/scheduling_strategy.go:43-70 | for any telemetry, a type is eligible exactly if one of its rows, the first one together with the tuples in flight, is below the threshold of the last policy for it |
| `Scheduler.Reconciler.Reconcile` | klyshko-operator/controllers/tuplegenerationscheduler_controller.go:47-125 | it gives up exactly if an API call fails; expired jobs go; then a job is created exactly if there are fewer active ones than the concurrency and some type that just one generator lists is short of its threshold, provided no such type is short in two rows; the job is for such a type, with that generator and its batch size; neither error for a missing generator or specification occurs |
| `Scheduler.Reconciler.ScheduleJob` | klyshko-operator/controllers/tuplegenerationscheduler_controller.go:84-125 | the part after the check of the concurrency: a job is created exactly if some type is wanted, under the same proviso, and is as wanted |
| `Scheduler.Reconciler.CreateJob` | klyshko-operator/controllers/tuplegenerationscheduler_controller.go:170-214 | the new job is not in any state yet and has the name of the generator and the batch size of its first entry for the type; an error exactly if there is none; else created exactly if the call does not fail |
| `Scheduler.Reconciler.CleanupFinishedJobs` | klyshko-operator/controllers/tuplegenerationscheduler_controller.go:217-243 | a job is deleted exactly if its name is that of a job that is Completed or Failed beyond its time to live, whatever the random order; after a failing call the rest stays |
| `Scheduler.Reconciler.GetMatchingJobs` | klyshko-operator/controllers/tuplegenerationscheduler_controller.go:246-261 | the jobs that satisfy the predicate, in order |
| `Scheduler.Reconciler.Shuffle` | klyshko-operator/controllers/tuplegenerationscheduler_controller.go:230-234 | the jobs are permuted |
| `Scheduler.GetGeneratorsByTupleType` | klyshko-operator/controllers/tuplegenerationscheduler_controller.go:128-145 | a type maps to the generators listing it, once for every time they list it |
| `Scheduler.GetServiceablePolicies` | klyshko-operator/controllers/tuplegenerationscheduler_controller.go:149-167 | the policies whose type is listed just once by one generator, all of them, in order |
| `Scheduler.OnlyGenerator` | klyshko-operator/controllers/tuplegenerationscheduler_controller.go:149-167 | a type listed once has one generator, no other lists it, and that one has a specification for it |
| `Scheduler.SupportedOnce` | klyshko-operator/controllers/tuplegenerationscheduler_controller.go:128-167 | a type has one entry in the map of generators exactly if it is listed just once |
| `Scheduler.EligibleIsWanted` | klyshko-operator/controllers/tuplegenerationscheduler_controller.go:95-101 | among the serviceable policies, the eligible types are those that are short and have just one generator |
| `Scheduler.EveryDrawSelectsIff` | klyshko-operator/controllers/tuplegenerationscheduler_controller.go:95-106 | every number that can be drawn leads to a job exactly if no type with just one generator is short in two rows |
| `Scheduler.ActiveJobs` | klyshko-operator/controllers/tuplegenerationscheduler_controller.go:68-76 | the active jobs are those neither Completed nor Failed, in order |
| `SchedulerRuns.StockBound` | klyshko-operator/controllers/tuplegenerationscheduler_controller.go:68-119 | for every type, available tuples plus those of active jobs not activated yet never exceed the larger of their initial value and the threshold less one plus the batch size |
| `SchedulerRuns.ConcurrencyBound` | klyshko-operator/controllers/tuplegenerationscheduler_controller.go:68-82 | the number of active jobs never exceeds the larger of its initial value and the largest concurrency |
| `SchedulerRuns.SwappedReadsExceedBound` | klyshko-operator/controllers/tuplegenerationscheduler_controller.go:68-88 | with telemetry read before the jobs are listed the bound would fail: stock 20 where it is 14 |
| `SchedulerRuns.CreatedJob` | klyshko-operator/controllers/tuplegenerationscheduler_controller.go:95-119 | a created job's type was short of its threshold by what the reconcile had read, and its count is a batch size of that type |
| `SchedulerRuns.ReconcileIsRun` | klyshko-operator/controllers/tuplegenerationscheduler_controller.go:47-125 | every call of the reconciler is a run of steps, deleting, listing, fetching and creating, that ends in the resources the call leaves, with the new job not activated |
| `SchedulerRuns.ReadsOfReconcile` | klyshko-operator/controllers/tuplegenerationscheduler_controller.go:68-88 | when jobs can be listed and telemetry fetched, and what is kept of it |
| `SchedulerRuns.ActivationMoves` | klyshko-operator/controllers/tuplegenerationjob_controller.go:206-216 | activating a chunk moves the tuples of its job from pending to available, once |
| `SchedulerRuns.StepsOfOthers` | klyshko-operator/controllers/tuplegenerationjob_controller.go:193-226 | jobs end once, only ended ones are deleted, consumption takes tuples |
| `HexSeed.SeedsAreNumbers` | klyshko-mp-spdz-tee/pkg/client.c:120-140 | parsing a 16-digit seed and printing a 64-bit number are mutually inverse |
| `HexSeed.AddHexAdds` | klyshko-mp-spdz-tee/pkg/client.c:120-140 | adding seeds is addition modulo 2^64 |
| `HexSeed.AddHexCommutes` | klyshko-mp-spdz-tee/pkg/server.c:147-167 | the addition of both roles is commutative |
| `HexSeed.AddHexAssociates` | klyshko-mp-spdz-tee/pkg/server.c:147-167 | the addition of both roles is associative |
| `HexSeed.AddHex` | klyshko-mp-spdz-tee/pkg/client.c:120-140 | the sum of any two strings has the form of a seed |
| `HexSeed.DigitsOfPrefix` | klyshko-mp-spdz-tee/pkg/client.c:120-140 | whatever follows the digits of a number is ignored, and one beyond 64 bits counts as the largest |
| `HexSeed.DigitValues` | klyshko-mp-spdz-tee/pkg/CRG.c:78-96 | the sixteen digits in both cases |
| `HexSeed.GetRandomHex` | klyshko-mp-spdz-tee/pkg/CRG.c:78-96 | one lower-case digit per random byte, terminated; 16 of them form a seed |
| `HexSeed.ParseHex` | klyshko-mp-spdz-tee/pkg/server.c:25-44 | succeeds exactly on texts of two hexadecimal digits per byte, and then fills in every byte |
| `HexSeed.HexOfBytes` | klyshko-mp-spdz-tee/pkg/server.c:25-44 | the printed form of any bytes is such a text and stands for these bytes |
| `Exchange.ExchangeSchedule` | klyshko-mp-spdz-tee/pkg/server.c:509-832 | for every N and every run the sessions happen in the one order (0,N-1)..(0,1),(1,N-1).., no client is turned away, an unfinished run can go on, and a finished one has had N(N-1)/2 sessions |
| `Exchange.OnlyScheduled` | klyshko-mp-spdz-tee/pkg/client.c:361-362 | at every point exactly one session is possible, and its server expects its client |
| `Exchange.SessionAdvances` | klyshko-mp-spdz-tee/pkg/server.c:509-832 | a session leads to the next point of the schedule |
| `Exchange.SchedulePeers` | klyshko-mp-spdz-tee/pkg/CRG.c:284-300 | in the schedule every player meets the lower-numbered players upwards and then the higher-numbered ones downwards |
| `ExchangeResult.Result` | klyshko-mp-spdz-tee/pkg/client.c:361-784 | the whole exchange is possible; then every player holds every player's share at its index in both tables, and the seeds have the closed form |
| `ExchangeResult.SessionAgrees` | klyshko-mp-spdz-tee/pkg/client.c:655-743 | both ends leave a session with the same seed, the sum modulo 2^64 of their two previous ones |
| `ExchangeResult.PlayerZero` | klyshko-mp-spdz-tee/pkg/client.c:361-784 | player 0 ends with the sum of all initial seeds |
| `ExchangeResult.TwoPlayersAgree` | klyshko-mp-spdz-tee/pkg/client.c:361-784 | two players end with the same seed, the sum of both |
| `ExchangeResult.AllAgreeIff` | klyshko-mp-spdz-tee/pkg/client.c:361-784 | all N players agree exactly if, with S the sum of the initial seeds v, for every a from 1 to N-2 the number (C(N-2,a-1) - 1) S + C(N-2,a) v[0] + the sum over i > a of C(i-1,a) v[i] is 0 modulo 2^64 |
| `ExchangeResult.ClosedTail` | klyshko-mp-spdz-tee/pkg/client.c:361-784 | as long as players 0 to a-2 hold the common sum, the seeds that client a meets add up to a sum of the initial ones with binomial coefficients |
| `ExchangeResult.LastTwoAgree` | klyshko-mp-spdz-tee/pkg/client.c:361-784 | the last two players agree whatever the seeds are |
| `ExchangeResult.ThreePlayersAgreeIff` | klyshko-mp-spdz-tee/pkg/client.c:361-784 | three players agree exactly if the initial seeds of players 0 and 2 cancel out |
| `ExchangeResult.ThreePlayersDisagree` | klyshko-mp-spdz-tee/pkg/client.c:361-784 | three players that end with different seeds |
| `Generator.Process.Serve` | klyshko-mp-spdz-tee/pkg/server.c:509-832 | the accept loop serves players 0, 1, .. in order, sends each the own share and the seed as it is then, adds their seeds, enters their shares; it completes exactly if all lower-numbered players come, refuses exactly the first wrong job or number, and fails exactly if connections are missing |
| `Generator.Process.Connect` | klyshko-mp-spdz-tee/pkg/client.c:361-784 | the connect loop does the same with the higher players, downwards; it fails exactly if one does not answer |
| `Generator.Process.Run` | klyshko-mp-spdz-tee/pkg/CRG.c:284-300 | it completes exactly if all lower-numbered players connect in order for this job and all higher-numbered ones answer; then every entry but the own one is the received one, the seed is the own one plus all received, and everybody was sent the own share with the seed as it was then |
| `Generator.SeedAfterIsSum` | klyshko-mp-spdz-tee/pkg/server.c:748-786 | the seed after any messages stands for the sum of all seeds |
| `Generator.ProcessesEndAsExchange` | klyshko-mp-spdz-tee/pkg/CRG.c:284-300 | N processes that are each sent what the others send end with the seeds of the exchange and have received the shares that its tables hold |
| `Generator.ProcessesCanBeWired` | klyshko-mp-spdz-tee/pkg/CRG.c:284-300 | such processes exist for all shares and seeds |
| `Generator.ScheduledCompletes` | klyshko-mp-spdz-tee/pkg/CRG.c:284-300 | a process that meets the others in the order of the exchange completes |
| `Generator.WiredCompletes` | klyshko-mp-spdz-tee/pkg/CRG.c:284-300 | processes that are each sent what the others send complete with these messages |
| `Generator.CreateMacKeyShares` | klyshko-mp-spdz-tee/pkg/CRG.c:117-158 | one file per player and field with the number of players and that player's share; other files are left alone |
| `Generator.KeyFilesDiffer` | klyshko-mp-spdz-tee/pkg/CRG.c:128-140 | different players or fields have different files |
| `Generator.KeyFileNames` | klyshko-mp-spdz-tee/pkg/CRG.c:128-150 | the two files of player 1 of 2, and what a file holds |
| `Generator.SameFiles` | klyshko-mp-spdz-tee/pkg/CRG.c:117-158 | after the exchange all players write the same texts |

## Left out

- Deletion and garbage collection of jobs, tasks and rosters by users or owner references: a job deleted before its own PUT event is handled is created again from that event, so clean deletion theorems do not hold.
- Liveness when watch handlers fail: lost events are not repaired. A bound on writes while faults go on: every crash may cause replays.
- Activating a chunk at most once: the code does not guarantee it.
- Fairness: convergence is stated as termination of effective steps, what a state without any looks like, and that one is always within reach.
- Controllers.Operator.ReconcileTask: starts at the local task; the redirection of other names to it is TaskNames.Redirect, and the creation of a service with its specification is one step.
- Controllers.Operator.List: lists the tasks of all jobs of the model; ownership by name is ownership by job.
- Controllers.Operator.HandleWatchEvents: one round of the endless loop, with responses about events that are in the log when it starts (HandleResponse has no such limit); sleeping before the next round is left out, and so is the recursion after an AlreadyExists error, which fresh reads rule out.
- EtcdKeys.MatcherIsExact: the regular expression library is not modelled; the matcher splits at slashes, and the lemma says that it accepts what the pattern describes.
- Lottery.Schedule: needs positive priorities, as the resource schema demands; integers are unbounded.
- Scheduler.Reconciler.CreateJob: the random job id is a parameter; a clash of names is a failing API call.
- SchedulerRuns.StockBound: chunks are activated once and job states only move forward.
- HexSeed.AddHex: one function for the two equal functions of the roles; leading white space, a sign or 0x, which strtoull would skip, end the digits here.
- Exchange.Session: a session is atomic; TLS, attestation, sockets, connection retries and protocol buffers are foreign, and copying of fixed-length buffers is copying of strings.
- Generator.Process.Serve: connections are a parameter, in the order in which they are accepted.
- Pod, service and volume specifications, tolerations, environment variables other than endpoints, the Castor HTTP client, configuration maps, logging, the provisioner, charts, scripts and the other generators: plumbing without invariants.

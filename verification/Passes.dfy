/** What one undisturbed call of a reconciler does, from the state at its start to the state at its end, in terms of
    resources and stored values only. Module Controllers proves the calls against these descriptions. */
module Passes {
  import opened Wrappers
  import opened EtcdLog
  import opened RosterModel
  import opened RosterSafety

  /** What a reconciler works on: the log of etcd and the resources of one job on one VCP. */
  datatype Config = Config(log: seq<Event>, cell: Cell)

  // The job reconciler.

  /** Player 0 publishes the roster or, without a job, deletes it; then the local task is created, or the job state
      follows the tasks. Without a roster the other players do nothing. */
  ghost predicate JobPass(n: nat, p: nat, j: nat, s: Config, t: Config) {
    var c := s.cell;
    if c.job.None? then
      t.cell == c && t.log == if p == 0 && Roster(s.log, j).Some? then s.log + [RosterDelete(j)] else s.log
    else if Roster(s.log, j).None? && p != 0 then t == s
    else
      && t.log == (if Roster(s.log, j).Some? then s.log else s.log + [RosterPut(j, c.job.value.spec)])
      && if p !in c.tasks then t.cell == c.(tasks := c.tasks[p := BLANK]) else StatePass(n, c, t.cell)
  }

  /** The job gets the state that its tasks say; before it completes its chunk is activated, and it does not complete
      without an id that identifies a chunk. */
  ghost predicate StatePass(n: nat, c: Cell, d: Cell)
    requires c.job.Some?
  {
    var job := c.job.value;
    forall st :: TasksSay(n, c.tasks, st) ==>
      if st != JobCompleted then d == c.(job := Some(job.(state := st)))
      else if job.state == JobCompleted || !job.spec.idIsUuid then d == c
      else d == c.(activated := true, job := Some(job.(state := JobCompleted)))
  }

  // The task reconciler, for the local task.

  /** Without a local task the roster entry is deleted; else it is created if missing, and acted upon. */
  ghost predicate TaskPass(n: nat, p: nat, j: nat, s: Config, t: Config) {
    if p !in s.cell.tasks then
      t.cell == s.cell && t.log == if Entry(s.log, j, p).Some? then s.log + [EntryDelete(j, p)] else s.log
    else if Entry(s.log, j, p).Some? then StatusPass(n, p, j, s, Entry(s.log, j, p).value, t)
    else StatusPass(n, p, j, s.(log := s.log + [EntryPut(j, p, FIRST)]), FIRST, t)
  }

  /** The local task shows the stored status; what happens next depends on its state. */
  ghost predicate StatusPass(n: nat, p: nat, j: nat, s: Config, st: TaskStatus, t: Config) {
    if st.state == Unset || s.cell.job.None? then t == s
    else ActPass(n, p, j, s.(cell := s.cell.(tasks := s.cell.tasks[p := st])), st, t)
  }

  ghost predicate ActPass(n: nat, p: nat, j: nat, s: Config, st: TaskStatus, t: Config) {
    match st.state
    case Preparing => PreparingPass(n, p, j, s, st, t)
    case Launching => LaunchingPass(n, p, j, s, st, t)
    case Generating => GeneratingPass(p, j, s, st, t)
    case Provisioning => ProvisioningPass(p, j, s, st, t)
    case Completed => t == s.(cell := s.cell.(owned := s.cell.owned.(pvc := false)))
    case Failed => t == s.(cell := s.cell.(owned := s.cell.owned.(pvc := false)))
    case Unset => true
  }

  /** Claim and service exist afterwards. With the endpoints of all players known the entry moves on to Launching; else
      the own endpoint is published if it is not known and the load balancer has an address. */
  ghost predicate PreparingPass(n: nat, p: nat, j: nat, s: Config, st: TaskStatus, t: Config) {
    var c := s.cell;
    var service := if c.owned.service.Some? then c.owned.service.value else Service(true, []);
    && t.cell == c.(owned := c.owned.(pvc := true, service := Some(service)))
    && EndpointsPass(n, p, j, s, st, service, t.log)
  }

  ghost predicate EndpointsPass(n: nat, p: nat, j: nat, s: Config, st: TaskStatus, service: Service, log: seq<Event>) {
    if AllEndpoints(n, s.cell.tasks) then log == s.log + [EntryPut(j, p, st.(state := Launching))]
    else if !(p in s.cell.tasks && p < n && s.cell.tasks[p].endpoint != "") && Addressed(service) then
      log == s.log + [EntryPut(j, p, st.(endpoint := Address(service) + ":5000"))]
    else log == s.log
  }

  /** With the tasks of all players there, a missing generator pod is created with their endpoints. */
  ghost predicate LaunchingPass(n: nat, p: nat, j: nat, s: Config, st: TaskStatus, t: Config) {
    var c := s.cell;
    var puts := s.log + [EntryPut(j, p, st.(state := Generating))];
    if c.owned.generator.Some? then t == s.(log := puts)
    else if Full(n, c.tasks) then
      && t.log == puts
      && t.cell.owned.generator.Some? && t.cell.owned.generator.value.phase == PodPending
      && IsEndpointList(n, c.tasks, t.cell.owned.generator.value.endpoints)
      && t.cell == c.(owned := c.owned.(generator := t.cell.owned.generator, generators := c.owned.generators + 1))
    else t == s
  }

  ghost predicate IsEndpointList(n: nat, tasks: map<nat, TaskStatus>, endpoints: map<nat, string>) {
    && (forall q :: q in endpoints <==> q < n && q in tasks && tasks[q].endpoint != "")
    && (forall q :: q in endpoints ==> endpoints[q] == tasks[q].endpoint)
  }

  /** After success a provisioner pod is created if missing, and the entry moves on; after failure it fails. */
  ghost predicate GeneratingPass(p: nat, j: nat, s: Config, st: TaskStatus, t: Config) {
    var o := s.cell.owned;
    if o.generator.Some? && o.generator.value.phase == PodSucceeded then
      && t.log == s.log + [EntryPut(j, p, st.(state := Provisioning))]
      && t.cell == if o.provisioner.Some? then s.cell
                   else s.cell.(owned := o.(provisioner := Some(PodPending), provisioners := o.provisioners + 1))
    else if o.generator.Some? && o.generator.value.phase == PodFailed then
      t == s.(log := s.log + [EntryPut(j, p, st.(state := Failed))])
    else t == s
  }

  ghost predicate ProvisioningPass(p: nat, j: nat, s: Config, st: TaskStatus, t: Config) {
    match s.cell.owned.provisioner
    case Some(PodSucceeded) => t == s.(log := s.log + [EntryPut(j, p, st.(state := Completed))])
    case Some(PodFailed) => t == s.(log := s.log + [EntryPut(j, p, st.(state := Failed))])
    case _ => t == s
  }

  // The watcher.

  /** What handling an event does to the resources of its job: a missing job is created from a roster, the proxy of
      another player shows the stored status, or Preparing if it is new; the local task is left alone. */
  ghost predicate Handles(p: nat, e: Event, c: Cell, d: Cell) {
    match e
    case RosterPut(_, spec) => d == if c.job.Some? then c else c.(job := Some(Job(spec, JobUnset)))
    case RosterDelete(_) => d == c.(job := None)
    case EntryPut(_, q, st) =>
      if q == p || c.job.None? then d == c
      else if q in c.tasks then d == c.(tasks := c.tasks[q := st])
      else d == c.(tasks := c.tasks[q := TaskStatus(Preparing, "")])
    case EntryDelete(_, q) => d == if q == p then c else c.(tasks := c.tasks - {q})
    case HeadPut(_, _) => d == c
  }

  /** Handling an event touches no other job; events that are not delivered touch nothing. */
  ghost predicate HandlesEvent(p: nat, e: Event, cells: seq<Cell>, after: seq<Cell>) {
    && |after| == |cells|
    && if IsRosterEvent(e) && e.job < |cells| then
         after == cells[e.job := after[e.job]] && Handles(p, e, cells[e.job], after[e.job])
       else after == cells
  }

  /** Handling the events of a part of the log in order: each leads from one state of the resources to the next one. */
  ghost predicate HandlesAll(p: nat, log: seq<Event>, from: nat, upto: nat, trace: seq<seq<Cell>>) {
    && from <= upto <= |log| && |trace| == upto - from + 1
    && forall i {:trigger log[i]} :: from <= i < upto ==> HandlesEvent(p, log[i], trace[i - from], trace[i - from + 1])
  }

  lemma HandlesMore(p: nat, log: seq<Event>, from: nat, at: nat, trace: seq<seq<Cell>>, cells: seq<Cell>)
    requires HandlesAll(p, log, from, at, trace) && at < |log| && HandlesEvent(p, log[at], trace[at - from], cells)
    ensures HandlesAll(p, log, from, at + 1, trace + [cells])
  {
  }
}

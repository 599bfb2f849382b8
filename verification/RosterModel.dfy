/** The cross-VCP roster protocol as a state machine. Every step reads what it needs and performs at most one write
    to etcd, Kubernetes or Castor; what a reconciler has read and still uses later is kept in its program counter,
    so that the job reconciler, the task reconciler and the watcher of a VCP, the operators of other VCPs, pods and
    load balancers interleave freely, and an operator may crash between any two writes. */
module RosterModel {
  import opened Wrappers
  import opened EtcdLog

  // Kubernetes resources.

  datatype JobState = JobUnset | JobPending | JobRunning | JobCompleted | JobFailed
  datatype Job = Job(spec: JobSpec, state: JobState)
  datatype Phase = PodPending | PodRunning | PodSucceeded | PodFailed
  datatype Pod = Pod(phase: Phase, endpoints: map<nat, string>)
  datatype Ingress = Ingress(ip: string, hostname: string)
  datatype Service = Service(loadBalancer: bool, ingress: seq<Ingress>)

  const PORT := "5000"

  datatype JobPc =
    | JobIdle
    | DeleteRoster
    | GetRoster(job: Job)
    | PutRoster(job: Job)
    | GetTask(job: Job)
    | CreateTask
    | ListTasks(job: Job)
    | Activate
    | UpdateJob(state: JobState)

  datatype TaskPc =
    | TaskIdle
    | DeleteEntry
    | GetEntry
    | PutEntry
    | GetStatus
    | RefreshTask(status: TaskStatus)
    | Act(status: TaskStatus)
    | EnsureService(status: TaskStatus)
    | Collect(status: TaskStatus, service: Service)
    | CreateGenerator(status: TaskStatus, endpoints: map<nat, string>)
    | CreateProvisioner(status: TaskStatus)
    | WriteStatus(status: TaskStatus)

  /** What the local task of a job owns; generators and provisioners count pod creations (history only). */
  datatype Owned = Owned(
    pvc: bool,
    service: Option<Service>,
    generator: Option<Pod>,
    provisioner: Option<Phase>,
    generators: nat,
    provisioners: nat)

  /** Everything one VCP holds for one job. tasks maps a player to the local task (own player) or to the proxy of a
      remote task; activated is Castor's view of the tuple chunk. */
  datatype Cell = Cell(
    job: Option<Job>,
    tasks: map<nat, TaskStatus>,
    owned: Owned,
    activated: bool,
    jobPc: JobPc,
    taskPc: TaskPc)

  /** The watch loop. base is the revision the current watch was registered at, at the revision of the last event
      dispatched in it; created: the proxy for the event at revision at + 1 exists, its status is still unset. */
  datatype Watcher =
    | Reading
    | Waiting(base: nat, at: nat)
    | Handling(base: nat, at: nat, upto: nat, created: bool)

  /** done counts the leading log events the watcher of this VCP has dispatched at least once (history only). */
  datatype Vcp = Vcp(cells: seq<Cell>, watcher: Watcher, done: nat)

  datatype State = State(log: seq<Event>, vcps: seq<Vcp>)

  datatype Effect = Effect(cell: Cell, puts: seq<Event>)

  // The job reconciler.

  /** The job state derived from the owned tasks; None if the reconciler leaves the state alone. */
  function Aggregate(n: nat, owned: map<nat, TaskStatus>, current: JobState): Option<JobState> {
    if |owned| < n then Some(JobPending)
    else if exists q :: q in owned && !Terminal(owned[q].state) then Some(JobRunning)
    else if exists q :: q in owned && owned[q].state == Failed then Some(JobFailed)
    else if current != JobCompleted then Some(JobCompleted)
    else None
  }

  function JobStep(n: nat, log: seq<Event>, p: nat, j: nat, c: Cell): Effect {
    match c.jobPc
    case JobIdle =>
      if c.job.Some? then Effect(c.(jobPc := GetRoster(c.job.value)), [])
      else Effect(c.(jobPc := if p == 0 then DeleteRoster else JobIdle), [])
    case DeleteRoster =>
      Effect(c.(jobPc := JobIdle), if Roster(log, j).Some? then [RosterDelete(j)] else [])
    case GetRoster(job) =>
      if Roster(log, j).Some? then Effect(c.(jobPc := GetTask(job)), [])
      else Effect(c.(jobPc := if p == 0 then PutRoster(job) else JobIdle), [])
    case PutRoster(job) =>
      Effect(c.(jobPc := GetTask(job)), [RosterPut(j, job.spec)])
    case GetTask(job) =>
      Effect(c.(jobPc := if p in c.tasks then ListTasks(job) else CreateTask), [])
    case CreateTask =>
      Effect(c.(tasks := if p in c.tasks then c.tasks else c.tasks[p := BLANK], jobPc := JobIdle), [])
    case ListTasks(job) =>
      (match Aggregate(n, c.tasks, job.state)
       case None => Effect(c.(jobPc := JobIdle), [])
       case Some(st) =>
         Effect(c.(jobPc := if st == JobCompleted then (if job.spec.idIsUuid then Activate else JobIdle)
                            else if st != job.state then UpdateJob(st) else JobIdle), []))
    case Activate =>
      Effect(c.(activated := true, jobPc := UpdateJob(JobCompleted)), [])
    case UpdateJob(st) =>
      Effect(c.(job := if c.job.Some? then Some(c.job.value.(state := st)) else None, jobPc := JobIdle), [])
  }

  // The task reconciler, for the local task of player p.

  /** The tasks of the job by player, proxies included; a task that cannot be read is skipped. */
  function TasksForJob(n: nat, tasks: map<nat, TaskStatus>, unread: set<nat>): map<nat, TaskStatus> {
    map q | q in tasks && q < n && q !in unread :: tasks[q]
  }

  function Endpoints(tasks: map<nat, TaskStatus>): map<nat, string> {
    map q | q in tasks && tasks[q].endpoint != "" :: tasks[q].endpoint
  }

  /** The first ingress point of a load balancer: an IP or else a hostname, Ok(None) while there is none. */
  function Endpoint(service: Service): Result<Option<string>, string> {
    if !service.loadBalancer then Err("service of type load balancer expected")
    else if service.ingress == [] then Ok(None)
    else if service.ingress[0].ip != "" then Ok(Some(service.ingress[0].ip))
    else if service.ingress[0].hostname != "" then Ok(Some(service.ingress[0].hostname))
    else Err("neither IP- nor hostname-based ingress point available")
  }

  /** unread: the players whose tasks cannot be read in this step when the tasks of the job are collected. */
  function TaskStep(n: nat, log: seq<Event>, p: nat, j: nat, c: Cell, unread: set<nat>): Effect {
    match c.taskPc
    case TaskIdle =>
      Effect(c.(taskPc := if p in c.tasks then GetEntry else DeleteEntry), [])
    case DeleteEntry =>
      Effect(c.(taskPc := TaskIdle), if Entry(log, j, p).Some? then [EntryDelete(j, p)] else [])
    case GetEntry =>
      Effect(c.(taskPc := if Entry(log, j, p).None? then PutEntry else GetStatus), [])
    case PutEntry =>
      Effect(c.(taskPc := GetStatus), [EntryPut(j, p, FIRST)])
    case GetStatus =>
      if Entry(log, j, p).None? || Entry(log, j, p).value.state == Unset || c.job.None?
      then Effect(c.(taskPc := TaskIdle), [])
      else Effect(c.(taskPc := RefreshTask(Entry(log, j, p).value)), [])
    case RefreshTask(st) =>
      if Entry(log, j, p).None? || p !in c.tasks then Effect(c.(taskPc := TaskIdle), [])
      else Effect(c.(tasks := c.tasks[p := Entry(log, j, p).value], taskPc := Act(st)), [])
    case Act(st) => Effect(ActStep(n, p, c, st, unread), [])
    case EnsureService(st) =>
      var service := if c.owned.service.Some? then c.owned.service.value else Service(true, []);
      Effect(c.(owned := c.owned.(service := Some(service)), taskPc := Collect(st, service)), [])
    case Collect(st, service) =>
      var endpoints := Endpoints(TasksForJob(n, c.tasks, unread));
      if |endpoints| == n then Effect(c.(taskPc := WriteStatus(st.(state := Launching))), [])
      else if p !in endpoints && Endpoint(service).Ok? && Endpoint(service).value.Some? then
        Effect(c.(taskPc := WriteStatus(st.(endpoint := Endpoint(service).value.value + ":" + PORT))), [])
      else Effect(c.(taskPc := TaskIdle), [])
    case CreateGenerator(st, endpoints) =>
      var o := c.owned.(generator := Some(Pod(PodPending, endpoints)), generators := c.owned.generators + 1);
      Effect(c.(owned := o, taskPc := WriteStatus(st.(state := Generating))), [])
    case CreateProvisioner(st) =>
      var o := if c.owned.provisioner.Some? then c.owned
               else c.owned.(provisioner := Some(PodPending), provisioners := c.owned.provisioners + 1);
      Effect(c.(owned := o, taskPc := WriteStatus(st.(state := Provisioning))), [])
    case WriteStatus(st) =>
      Effect(c.(taskPc := TaskIdle), [EntryPut(j, p, st)])
  }

  /** The switch on the task state; its first write, if any. */
  function ActStep(n: nat, p: nat, c: Cell, st: TaskStatus, unread: set<nat>): Cell {
    match st.state
    case Preparing => c.(owned := c.owned.(pvc := true), taskPc := EnsureService(st))
    case Launching =>
      if c.owned.generator.Some? then c.(taskPc := WriteStatus(st.(state := Generating)))
      else
        var tasks := TasksForJob(n, c.tasks, unread);
        c.(taskPc := if |tasks| == n then CreateGenerator(st, Endpoints(tasks)) else TaskIdle)
    case Generating =>
      c.(taskPc := if c.owned.generator.None? then TaskIdle
                   else if c.owned.generator.value.phase == PodSucceeded then CreateProvisioner(st)
                   else if c.owned.generator.value.phase == PodFailed then WriteStatus(st.(state := Failed))
                   else TaskIdle)
    case Provisioning =>
      c.(taskPc := if c.owned.provisioner == Some(PodSucceeded) then WriteStatus(st.(state := Completed))
                   else if c.owned.provisioner == Some(PodFailed) then WriteStatus(st.(state := Failed))
                   else TaskIdle)
    case Completed => c.(owned := c.owned.(pvc := false), taskPc := TaskIdle)
    case Failed => c.(owned := c.owned.(pvc := false), taskPc := TaskIdle)
    case Unset => c.(taskPc := TaskIdle)
  }

  // The watcher of player p.

  datatype WatchEffect = WatchEffect(vcp: Vcp, puts: seq<Event>)

  function Advance(v: Vcp): Vcp
    requires v.watcher.Handling?
  {
    v.(watcher := v.watcher.(at := v.watcher.at + 1, created := false),
       done := if v.watcher.at == v.done then v.done + 1 else v.done)
  }

  /** What handling an event writes to the cell of the event's job. */
  function HandleEvent(p: nat, c: Cell, e: Event): Cell {
    match e
    case RosterPut(_, spec) => if c.job.Some? then c else c.(job := Some(Job(spec, JobUnset)))
    case RosterDelete(_) => c.(job := None)
    case EntryPut(_, q, st) =>
      if q == p || c.job.None? then c
      else c.(tasks := c.tasks[q := if q in c.tasks then st else BLANK])
    case EntryDelete(_, q) => if q == p then c else c.(tasks := c.tasks - {q})
    case HeadPut(_, _) => c
  }

  predicate CreatesProxy(p: nat, c: Cell, e: Event) {
    e.EntryPut? && e.player != p && c.job.Some? && e.player !in c.tasks
  }

  function WatchStep(log: seq<Event>, p: nat, v: Vcp): WatchEffect {
    match v.watcher
    case Reading => WatchEffect(v.(watcher := Waiting(Head(log, p), Head(log, p))), [])
    case Waiting(_, _) => WatchEffect(v, [])
    case Handling(base, at, upto, created) =>
      if at >= upto || at >= |log| then WatchEffect(v.(watcher := Waiting(base, upto)), [HeadPut(p, upto)])
      else if !IsRosterEvent(log[at]) || log[at].job >= |v.cells| then WatchEffect(Advance(v), [])
      else
        var e := log[at];
        var c := v.cells[e.job];
        if created then
          var tasks := if e.EntryPut? then c.tasks[e.player := FIRST] else c.tasks;
          WatchEffect(Advance(v.(cells := v.cells[e.job := c.(tasks := tasks)])), [])
        else
          var handled := v.(cells := v.cells[e.job := HandleEvent(p, c, e)]);
          if CreatesProxy(p, c, e) then WatchEffect(handled.(watcher := v.watcher.(created := true)), [])
          else WatchEffect(Advance(handled), [])
  }

  // The whole system: n VCPs sharing one etcd, m jobs.

  datatype Action =
    | SubmitJob(job: nat, spec: JobSpec)                              // a scheduler or user creates the job on VCP 0
    | JobTick(player: nat, job: nat)
    | TaskTick(player: nat, job: nat, unread: set<nat>)
    | JobAbort(player: nat, job: nat)                                 // an API call failed: the reconciler gives up
    | TaskAbort(player: nat, job: nat)
    | GeneratorPhase(player: nat, job: nat, phase: Phase)
    | ProvisionerPhase(player: nat, job: nat, phase: Phase)
    | SetIngress(player: nat, job: nat, ingress: seq<Ingress>)
    | WatchTick(player: nat)
    | Receive(player: nat, upto: nat)                                 // a watch response with header revision upto
    | Drop(player: nat)                                               // a handler failed: the event is logged and lost
    | Reconnect(player: nat)                                          // watch or head write failed
    | Crash(player: nat)

  const EMPTY := Cell(None, map[], Owned(false, None, None, None, 0, 0), false, JobIdle, TaskIdle)

  function Init(n: nat, m: nat): State {
    State([], seq(n, _ => Vcp(seq(m, _ => EMPTY), Reading, 0)))
  }

  predicate Shape(n: nat, m: nat, s: State) {
    |s.vcps| == n && forall p :: 0 <= p < n ==> |s.vcps[p].cells| == m
  }

  function WithCell(s: State, p: nat, j: nat, c: Cell, puts: seq<Event>): State
    requires p < |s.vcps| && j < |s.vcps[p].cells|
  {
    State(s.log + puts, s.vcps[p := s.vcps[p].(cells := s.vcps[p].cells[j := c])])
  }

  function WithVcp(s: State, p: nat, v: Vcp, puts: seq<Event>): State
    requires p < |s.vcps|
  {
    State(s.log + puts, s.vcps[p := v])
  }

  predicate PhaseEdge(from: Phase, to: Phase) {
    (from == PodPending && to != PodPending) || (from == PodRunning && (to == PodSucceeded || to == PodFailed))
  }

  function Restarted(cells: seq<Cell>): seq<Cell> {
    seq(|cells|, i requires 0 <= i < |cells| => cells[i].(jobPc := JobIdle, taskPc := TaskIdle))
  }

  function GeneratorMoves(o: Owned, ph: Phase): Owned {
    if o.generator.Some? && PhaseEdge(o.generator.value.phase, ph)
    then o.(generator := Some(o.generator.value.(phase := ph))) else o
  }

  function ProvisionerMoves(o: Owned, ph: Phase): Owned {
    if o.provisioner.Some? && PhaseEdge(o.provisioner.value, ph) then o.(provisioner := Some(ph)) else o
  }

  function IngressChanges(o: Owned, ingress: seq<Ingress>): Owned {
    if o.service.Some? then o.(service := Some(o.service.value.(ingress := ingress))) else o
  }

  /** A step of one cell; an action that is not possible leaves it as it is. */
  function CellStep(n: nat, log: seq<Event>, p: nat, j: nat, c: Cell, a: Action): Effect {
    match a
    case SubmitJob(_, spec) =>
      Effect(if p == 0 && c.job.None? then c.(job := Some(Job(spec, JobUnset))) else c, [])
    case JobTick(_, _) => JobStep(n, log, p, j, c)
    case TaskTick(_, _, unread) => TaskStep(n, log, p, j, c, unread)
    case JobAbort(_, _) => Effect(c.(jobPc := JobIdle), [])
    case TaskAbort(_, _) => Effect(c.(taskPc := TaskIdle), [])
    case GeneratorPhase(_, _, ph) => Effect(c.(owned := GeneratorMoves(c.owned, ph)), [])
    case ProvisionerPhase(_, _, ph) => Effect(c.(owned := ProvisionerMoves(c.owned, ph)), [])
    case SetIngress(_, _, ingress) => Effect(c.(owned := IngressChanges(c.owned, ingress)), [])
    case _ => Effect(c, [])
  }

  predicate IsCellAction(a: Action) {
    a.SubmitJob? || a.JobTick? || a.TaskTick? || a.JobAbort? || a.TaskAbort?
    || a.GeneratorPhase? || a.ProvisionerPhase? || a.SetIngress?
  }

  function PlayerOf(a: Action): nat {
    if a.SubmitJob? then 0 else a.player
  }

  /** A step of the watcher or of the whole operator of one VCP. */
  function OperatorStep(log: seq<Event>, p: nat, v: Vcp, a: Action): WatchEffect {
    match a
    case WatchTick(_) => WatchStep(log, p, v)
    case Receive(_, upto) =>
      // etcd answers a watch only when there is a roster event to deliver
      if v.watcher.Waiting? && v.watcher.at < upto <= |log|
         && exists i :: v.watcher.at <= i < upto && IsRosterEvent(log[i])
      then WatchEffect(v.(watcher := Handling(v.watcher.base, v.watcher.at, upto, false)), [])
      else WatchEffect(v, [])
    case Drop(_) =>
      if v.watcher.Handling? && v.watcher.at < v.watcher.upto then WatchEffect(Advance(v), [])
      else WatchEffect(v, [])
    case Reconnect(_) => WatchEffect(v.(watcher := Reading), [])
    case Crash(_) => WatchEffect(v.(watcher := Reading, cells := Restarted(v.cells)), [])
    case _ => WatchEffect(v, [])
  }

  /** One step of the system; an action that is not possible leaves the state as it is. */
  function Next(n: nat, m: nat, s: State, a: Action): State
    requires Shape(n, m, s)
    ensures Shape(n, m, Next(n, m, s, a))
  {
    var p := PlayerOf(a);
    if p >= n || (IsCellAction(a) && a.job >= m) then s
    else if IsCellAction(a) then
      var eff := CellStep(n, s.log, p, a.job, s.vcps[p].cells[a.job], a);
      WithCell(s, p, a.job, eff.cell, eff.puts)
    else
      var eff := OperatorStep(s.log, p, s.vcps[p], a);
      WithVcp(s, p, eff.vcp, eff.puts)
  }

  /** The state after a run; every sequence of actions is a run. */
  function Run(n: nat, m: nat, acts: seq<Action>): (s: State)
    ensures Shape(n, m, s)
  {
    if acts == [] then Init(n, m)
    else Next(n, m, Run(n, m, acts[..|acts| - 1]), acts[|acts| - 1])
  }

  /** The state that actions lead to from a given one. */
  function After(n: nat, m: nat, s: State, acts: seq<Action>): (t: State)
    requires Shape(n, m, s)
    ensures Shape(n, m, t)
    decreases |acts|
  {
    if acts == [] then s else After(n, m, Next(n, m, s, acts[0]), acts[1..])
  }
}

/** Safety of the roster protocol in every reachable state, under any interleaving, crash, failed API call, watcher
    replay or dropped watch event. The invariant is local: it relates each VCP's resources for a job to the log. */
module RosterSafety {
  import opened Wrappers
  import opened EtcdLog
  import opened RosterModel

  ghost predicate AllCompleted(n: nat, log: seq<Event>, j: nat) {
    forall q :: 0 <= q < n ==> Entry(log, j, q).Some? && Entry(log, j, q).value.state == Completed
  }

  ghost predicate SomeFailed(n: nat, log: seq<Event>, j: nat) {
    exists q :: 0 <= q < n && Entry(log, j, q).Some? && Entry(log, j, q).value.state == Failed
  }

  /** The player has published the endpoint at some time. */
  ghost predicate WasPublished(log: seq<Event>, j: nat, q: nat, endpoint: string) {
    exists st :: EntryPut(j, q, st) in log && st.endpoint == endpoint
  }

  /** Every listed endpoint was published by its player. */
  ghost predicate Announced(n: nat, log: seq<Event>, j: nat, endpoints: map<nat, string>) {
    forall q :: q in endpoints ==> q < n && endpoints[q] != "" && WasPublished(log, j, q, endpoints[q])
  }

  // Addresses of load balancers.

  /** A load balancer whose first ingress point has an IP or a hostname. */
  predicate Addressed(service: Service) {
    service.loadBalancer && service.ingress != [] && (service.ingress[0].ip != "" || service.ingress[0].hostname != "")
  }

  /** The IP, or the hostname if there is no IP. */
  function Address(service: Service): (a: string)
    requires Addressed(service)
    ensures a != ""
  {
    if service.ingress[0].ip != "" then service.ingress[0].ip else service.ingress[0].hostname
  }

  /** The endpoint of a service is its address; there is none yet for a load balancer without an ingress point; anything
      else is an error. */
  lemma EndpointIs(service: Service)
    ensures forall a :: Endpoint(service) == Ok(Some(a)) <==> Addressed(service) && a == Address(service)
    ensures Endpoint(service) == Ok(None) <==> service.loadBalancer && service.ingress == []
    ensures Endpoint(service).Err? <==>
              !service.loadBalancer
              || (service.ingress != [] && service.ingress[0].ip == "" && service.ingress[0].hostname == "")
  {
  }

  // Tables of tasks.

  ghost predicate Full(n: nat, t: map<nat, TaskStatus>) {
    forall q :: 0 <= q < n ==> q in t
  }

  ghost predicate AllEndpoints(n: nat, t: map<nat, TaskStatus>) {
    forall q :: 0 <= q < n ==> q in t && t[q].endpoint != ""
  }

  // The invariant.

  ghost predicate JobInv(n: nat, log: seq<Event>, p: nat, j: nat, c: Cell) {
    && (p == 0 && Roster(log, j).Some? ==> c.job.Some? && c.job.value.spec == Roster(log, j).value)
    && (p != 0 && c.job.Some? ==> Roster(log, j) == Some(c.job.value.spec))
    && (c.tasks != map[] ==> c.job.Some? && Roster(log, j).Some?)
    && (c.activated ==> c.job.Some? && c.job.value.spec.idIsUuid && AllCompleted(n, log, j))
    && (c.job.Some? && c.job.value.state == JobCompleted ==> c.activated)
    && (c.job.Some? && c.job.value.state == JobFailed ==> SomeFailed(n, log, j))
  }

  ghost predicate JobPcInv(n: nat, log: seq<Event>, p: nat, j: nat, c: Cell) {
    match c.jobPc
    case JobIdle => true
    case DeleteRoster => p == 0 && Roster(log, j).None?
    case GetRoster(job) => c.job == Some(job)
    case PutRoster(job) => c.job == Some(job) && p == 0 && Roster(log, j).None?
    case GetTask(job) => c.job == Some(job) && Roster(log, j).Some?
    case CreateTask => c.job.Some? && Roster(log, j).Some?
    case ListTasks(job) => c.job == Some(job) && Roster(log, j).Some?
    case Activate => c.job.Some? && c.job.value.spec.idIsUuid && AllCompleted(n, log, j)
    case UpdateJob(st) =>
      && c.job.Some?
      && (st == JobCompleted ==> c.activated)
      && (st == JobFailed ==> SomeFailed(n, log, j))
  }

  /** Every task status is unset or was held by etcd for that player. */
  ghost predicate TasksInv(n: nat, log: seq<Event>, p: nat, j: nat, c: Cell) {
    && (forall q :: q in c.tasks ==>
          && q < n
          && (q == p || Entry(log, j, q).Some?)
          && (c.tasks[q] == BLANK || EntryPut(j, q, c.tasks[q]) in log))
    && (Entry(log, j, p).Some? ==> p in c.tasks)
  }

  /** The Kubernetes resources a roster entry of the local player relies on. */
  predicate Backed(o: Owned, st: TaskStatus) {
    && (st.state != Preparing ==> st.endpoint != "")
    && match st.state
       case Preparing => o.generator.None?
       case Launching => o.pvc && o.provisioner.None?
       case Generating => o.pvc && o.generator.Some?
       case Provisioning => o.pvc && o.generator.Some? && o.generator.value.phase == PodSucceeded && o.provisioner.Some?
       case Completed => o.generator.Some? && o.generator.value.phase == PodSucceeded && o.provisioner == Some(PodSucceeded)
       case Failed => o.generator.Some? && (o.generator.value.phase == PodFailed || o.provisioner == Some(PodFailed))
       case Unset => false
  }

  ghost predicate PodsInv(n: nat, log: seq<Event>, p: nat, j: nat, c: Cell) {
    && (match Entry(log, j, p)
        case None => !c.owned.pvc && c.owned.generator.None?
        case Some(st) => Backed(c.owned, st))
    && (c.owned.provisioner.Some? ==> c.owned.generator.Some? && c.owned.generator.value.phase == PodSucceeded)
    && c.owned.generators == (if c.owned.generator.Some? then 1 else 0)
    && c.owned.provisioners == (if c.owned.provisioner.Some? then 1 else 0)
    && (c.owned.generator.Some? ==> Announced(n, log, j, c.owned.generator.value.endpoints))
  }

  ghost predicate TaskPcInv(n: nat, log: seq<Event>, p: nat, j: nat, c: Cell) {
    match c.taskPc
    case TaskIdle => true
    case DeleteEntry => Entry(log, j, p).None?
    case GetEntry => p in c.tasks
    case PutEntry => p in c.tasks && Entry(log, j, p).None?
    case GetStatus => p in c.tasks && Entry(log, j, p).Some?
    case RefreshTask(st) => Entry(log, j, p) == Some(st)
    case Act(st) => Settled(log, p, j, c, st)
    case EnsureService(st) => Settled(log, p, j, c, st) && st.state == Preparing && c.owned.pvc
    case Collect(st, _) => Settled(log, p, j, c, st) && st.state == Preparing && c.owned.pvc
    case CreateGenerator(st, endpoints) =>
      && Entry(log, j, p) == Some(st) && st.state == Launching && c.owned.generator.None?
      && Announced(n, log, j, endpoints)
    case CreateProvisioner(st) =>
      && Entry(log, j, p) == Some(st) && st.state == Generating
      && c.owned.generator.Some? && c.owned.generator.value.phase == PodSucceeded
    case WriteStatus(st) => Entry(log, j, p).Some? && Edge(Entry(log, j, p).value, st) && Backed(c.owned, st)
  }

  /** The reconciler's status is the stored one, and the local task shows it. */
  ghost predicate Settled(log: seq<Event>, p: nat, j: nat, c: Cell, st: TaskStatus) {
    Entry(log, j, p) == Some(st) && p in c.tasks && c.tasks[p] == st
  }

  ghost predicate CellInv(n: nat, log: seq<Event>, p: nat, j: nat, c: Cell) {
    && JobInv(n, log, p, j, c)
    && JobPcInv(n, log, p, j, c)
    && TasksInv(n, log, p, j, c)
    && PodsInv(n, log, p, j, c)
    && TaskPcInv(n, log, p, j, c)
  }

  ghost predicate WatchInv(log: seq<Event>, p: nat, v: Vcp) {
    && Head(log, p) <= v.done <= |log|
    && match v.watcher
       case Reading => true
       case Waiting(base, at) => base <= Head(log, p) <= at <= v.done
       case Handling(base, at, upto, created) =>
         && base <= Head(log, p) <= at <= v.done && at <= upto <= |log|
         && (created ==> CreatedInv(log, p, v, at, upto))
  }

  predicate CreatedInv(log: seq<Event>, p: nat, v: Vcp, at: nat, upto: nat) {
    && at < upto <= |log|
    && log[at].EntryPut? && log[at].player != p && log[at].job < |v.cells|
    && log[at].player in v.cells[log[at].job].tasks
  }

  ghost predicate Inv(n: nat, m: nat, s: State) {
    && Shape(n, m, s)
    && ValidLog(n, s.log)
    && (forall p, j :: 0 <= p < n && 0 <= j < m ==> CellInv(n, s.log, p, j, s.vcps[p].cells[j]))
    && (forall p :: 0 <= p < n ==> WatchInv(s.log, p, s.vcps[p]))
  }

  // Facts about the log that the steps rely on.

  /** N tasks of players below N are the tasks of all players. */
  lemma {:induction false} FullTable<V>(n: nat, tasks: map<nat, V>)
    requires forall q :: q in tasks ==> q < n
    requires |tasks| >= n
    ensures forall q :: 0 <= q < n ==> q in tasks
  {
    FullSet(n, tasks.Keys);
  }

  lemma {:induction false} FullSet(n: nat, s: set<nat>)
    requires forall q :: q in s ==> q < n
    ensures |s| <= n
    ensures |s| == n ==> forall q :: 0 <= q < n ==> q in s
  {
    if n > 0 {
      FullSet(n - 1, s - {n - 1});
      if n - 1 !in s {
        assert s - {n - 1} == s;
      } else if |s| == n {
        forall q: nat | q < n ensures q in s {
          assert q < n - 1 ==> q in s - {n - 1};
        }
      }
    } else {
      assert s == {};
    }
  }

  lemma {:induction false} FullSize<V>(n: nat, t: map<nat, V>)
    requires forall q :: 0 <= q < n ==> q in t
    ensures |t| >= n
  {
    if n > 0 {
      var u := t - {n - 1};
      FullSize(n - 1, u);
      assert u.Keys == t.Keys - {n - 1};
    }
  }

  lemma AbsorbingOutcomes(n: nat, log: seq<Event>, e: Event, j: nat)
    requires ValidLog(n, log) && ValidEvent(n, log, e)
    ensures AllCompleted(n, log, j) ==> AllCompleted(n, log + [e], j)
    ensures SomeFailed(n, log, j) ==> SomeFailed(n, log + [e], j)
    ensures forall q :: Entry(log, j, q).Some? ==> Entry(log + [e], j, q).Some?
    ensures Roster(log, j).Some? ==> Roster(log + [e], j) == Roster(log, j)
  {
    Append(log, e);
  }

  lemma AnnouncedStays(n: nat, log: seq<Event>, e: Event, j: nat, endpoints: map<nat, string>)
    requires Announced(n, log, j, endpoints)
    ensures Announced(n, log + [e], j, endpoints)
  {
    forall q | q in endpoints ensures WasPublished(log + [e], j, q, endpoints[q]) {
      var st :| EntryPut(j, q, st) in log && st.endpoint == endpoints[q];
      assert EntryPut(j, q, st) in log + [e];
    }
  }

  /** What the tasks of a job say about it: Pending until there are N of them, Running until all have ended, then Failed
      if one has failed, else Completed. */
  ghost predicate TasksSay(n: nat, tasks: map<nat, TaskStatus>, st: JobState) {
    match st
    case JobUnset => false
    case JobPending => |tasks| < n
    case JobRunning => |tasks| >= n && exists q :: q in tasks && !Terminal(tasks[q].state)
    case JobFailed =>
      && |tasks| >= n && (forall q :: q in tasks ==> Terminal(tasks[q].state))
      && exists q :: q in tasks && tasks[q].state == Failed
    case JobCompleted => |tasks| >= n && forall q :: q in tasks ==> tasks[q].state == Completed
  }

  /** The tasks always say exactly one thing, and the reconciler derives it, except that it leaves a job alone that is
      Completed already. */
  lemma AggregateSays(n: nat, tasks: map<nat, TaskStatus>, current: JobState) returns (st: JobState)
    ensures TasksSay(n, tasks, st) && forall other :: TasksSay(n, tasks, other) ==> other == st
    ensures Aggregate(n, tasks, current) == if st == JobCompleted == current then None else Some(st)
  {
    st := if |tasks| < n then JobPending
          else if exists q :: q in tasks && !Terminal(tasks[q].state) then JobRunning
          else if exists q :: q in tasks && tasks[q].state == Failed then JobFailed else JobCompleted;
  }

  /** What the aggregation may conclude from task statuses that etcd held at some time. */
  lemma AggregateSound(n: nat, log: seq<Event>, p: nat, j: nat, c: Cell, current: JobState)
    requires ValidLog(n, log) && TasksInv(n, log, p, j, c)
    ensures Aggregate(n, c.tasks, current) == Some(JobCompleted) ==> AllCompleted(n, log, j)
    ensures Aggregate(n, c.tasks, current) == Some(JobFailed) ==> SomeFailed(n, log, j)
  {
    forall q | q in c.tasks && Terminal(c.tasks[q].state)
      ensures Entry(log, j, q) == Some(c.tasks[q])
    {
      HeldIsOvertaken(n, log, j, q, c.tasks[q]);
    }
    if |c.tasks| >= n {
      FullTable(n, c.tasks);
    }
  }

  /** The endpoints shown by tasks were published. */
  lemma EndpointsSound(n: nat, log: seq<Event>, p: nat, j: nat, c: Cell, u: set<nat>)
    requires TasksInv(n, log, p, j, c)
    ensures Announced(n, log, j, Endpoints(TasksForJob(n, c.tasks, u)))
  {
    forall q | q in c.tasks && c.tasks[q].endpoint != "" ensures WasPublished(log, j, q, c.tasks[q].endpoint) {
      assert EntryPut(j, q, c.tasks[q]) in log;
    }
  }

  // Preservation. First what an event put by another cell leaves intact.

  lemma JobFrame(n: nat, log: seq<Event>, p: nat, j: nat, c: Cell, e: Event)
    requires ValidLog(n, log) && ValidEvent(n, log, e) && JobInv(n, log, p, j, c)
    requires e.RosterPut? && e.job == j ==> p != 0 || (c.job.Some? && c.job.value.spec == e.spec)
    ensures JobInv(n, log + [e], p, j, c)
  {
    Append(log, e);
    AbsorbingOutcomes(n, log, e, j);
  }

  lemma JobPcFrame(n: nat, log: seq<Event>, p: nat, j: nat, c: Cell, e: Event)
    requires ValidLog(n, log) && ValidEvent(n, log, e) && JobPcInv(n, log, p, j, c)
    requires e.RosterPut? && e.job == j ==> p != 0
    ensures JobPcInv(n, log + [e], p, j, c)
  {
    Append(log, e);
    AbsorbingOutcomes(n, log, e, j);
  }

  lemma TasksFrame(n: nat, log: seq<Event>, p: nat, j: nat, c: Cell, e: Event)
    requires ValidLog(n, log) && ValidEvent(n, log, e) && TasksInv(n, log, p, j, c)
    requires e.EntryPut? && e.job == j && e.player == p ==> p in c.tasks
    ensures TasksInv(n, log + [e], p, j, c)
  {
    Append(log, e);
  }

  lemma PodsFrame(n: nat, log: seq<Event>, p: nat, j: nat, c: Cell, e: Event)
    requires ValidLog(n, log) && ValidEvent(n, log, e) && PodsInv(n, log, p, j, c)
    requires e.EntryPut? && e.job == j && e.player == p ==> Backed(c.owned, e.status)
    ensures PodsInv(n, log + [e], p, j, c)
  {
    Append(log, e);
    if c.owned.generator.Some? {
      AnnouncedStays(n, log, e, j, c.owned.generator.value.endpoints);
    }
  }

  lemma TaskPcFrame(n: nat, log: seq<Event>, p: nat, j: nat, c: Cell, e: Event)
    requires ValidLog(n, log) && ValidEvent(n, log, e) && TaskPcInv(n, log, p, j, c)
    requires !(e.EntryPut? && e.job == j && e.player == p)
    ensures TaskPcInv(n, log + [e], p, j, c)
  {
    Append(log, e);
    if c.taskPc.CreateGenerator? {
      AnnouncedStays(n, log, e, j, c.taskPc.endpoints);
    }
  }

  lemma CellFrame(n: nat, log: seq<Event>, p: nat, j: nat, c: Cell, e: Event)
    requires ValidLog(n, log) && ValidEvent(n, log, e) && CellInv(n, log, p, j, c)
    requires !(e.EntryPut? && e.job == j && e.player == p) && !(e.RosterPut? && e.job == j && p == 0)
    ensures CellInv(n, log + [e], p, j, c)
  {
    JobFrame(n, log, p, j, c, e);
    JobPcFrame(n, log, p, j, c, e);
    TasksFrame(n, log, p, j, c, e);
    PodsFrame(n, log, p, j, c, e);
    TaskPcFrame(n, log, p, j, c, e);
  }

  // Then the steps of the reconcilers themselves.

  /** An effect is good if it puts at most one valid event, of this very cell, and keeps the invariant. */
  ghost predicate GoodEffect(n: nat, log: seq<Event>, p: nat, j: nat, eff: Effect) {
    && (eff.puts == [] || (|eff.puts| == 1 && ValidEvent(n, log, eff.puts[0])))
    && (forall e :: e in eff.puts ==> e.RosterPut? || e.EntryPut?)
    && (forall e :: e in eff.puts ==> e.job == j && (if e.RosterPut? then p == 0 else e.player == p))
    && CellInv(n, log + eff.puts, p, j, eff.cell)
  }

  lemma JobStepKeeps(n: nat, log: seq<Event>, p: nat, j: nat, c: Cell)
    requires p < n && ValidLog(n, log) && CellInv(n, log, p, j, c)
    ensures GoodEffect(n, log, p, j, JobStep(n, log, p, j, c))
  {
    var eff := JobStep(n, log, p, j, c);
    if c.jobPc.PutRoster? {
      JobStepPut(n, log, p, j, c);
    } else {
      assert eff.puts == [] && log + eff.puts == log;
      if c.jobPc.ListTasks? {
        AggregateSound(n, log, p, j, c, c.jobPc.job.state);
      }
      JobStepQuiet(n, log, p, j, c);
      JobStepChange(n, log, p, j, c);
      JobChangeKeeps(n, log, p, j, c, eff.cell);
    }
  }

  lemma JobStepPut(n: nat, log: seq<Event>, p: nat, j: nat, c: Cell)
    requires p < n && ValidLog(n, log) && CellInv(n, log, p, j, c) && c.jobPc.PutRoster?
    ensures GoodEffect(n, log, p, j, JobStep(n, log, p, j, c))
  {
    var e, d := RosterPut(j, c.jobPc.job.spec), c.(jobPc := GetTask(c.jobPc.job));
    assert JobStep(n, log, p, j, c) == Effect(d, [e]);
    RosterPublished(n, log, p, j, d, e);
  }

  lemma RosterPublished(n: nat, log: seq<Event>, p: nat, j: nat, c: Cell, e: Event)
    requires ValidLog(n, log) && ValidEvent(n, log, e) && e.RosterPut? && e.job == j
    requires c.job.Some? && c.job.value.spec == e.spec && c.jobPc == GetTask(c.job.value)
    requires JobInv(n, log, p, j, c) && TasksInv(n, log, p, j, c) && PodsInv(n, log, p, j, c) && TaskPcInv(n, log, p, j, c)
    ensures CellInv(n, log + [e], p, j, c)
  {
    JobFrame(n, log, p, j, c, e);
    TasksFrame(n, log, p, j, c, e);
    PodsFrame(n, log, p, j, c, e);
    TaskPcFrame(n, log, p, j, c, e);
    assert Roster(log + [e], j).Some? by {
      Append(log, e);
    }
  }

  /** The job reconciler touches the job, Castor and, if there is none, the local task. */
  ghost predicate JobChange(p: nat, c: Cell, d: Cell) {
    && d == c.(job := d.job, tasks := d.tasks, activated := d.activated, jobPc := d.jobPc)
    && (d.tasks == c.tasks || (p !in c.tasks && c.job.Some? && d.tasks == c.tasks[p := BLANK]))
  }

  lemma JobStepChange(n: nat, log: seq<Event>, p: nat, j: nat, c: Cell)
    requires c.jobPc.CreateTask? ==> c.job.Some?
    ensures JobChange(p, c, JobStep(n, log, p, j, c).cell)
  {
  }

  lemma JobChangeKeeps(n: nat, log: seq<Event>, p: nat, j: nat, c: Cell, d: Cell)
    requires p < n && CellInv(n, log, p, j, c) && JobChange(p, c, d)
    ensures TasksInv(n, log, p, j, d) && PodsInv(n, log, p, j, d) && TaskPcInv(n, log, p, j, d)
  {
  }

  lemma JobStepQuiet(n: nat, log: seq<Event>, p: nat, j: nat, c: Cell)
    requires JobInv(n, log, p, j, c) && JobPcInv(n, log, p, j, c) && !c.jobPc.PutRoster?
    requires c.jobPc.ListTasks? ==>
               && (Aggregate(n, c.tasks, c.jobPc.job.state) == Some(JobCompleted) ==> AllCompleted(n, log, j))
               && (Aggregate(n, c.tasks, c.jobPc.job.state) == Some(JobFailed) ==> SomeFailed(n, log, j))
    ensures JobInv(n, log, p, j, JobStep(n, log, p, j, c).cell)
    ensures JobPcInv(n, log, p, j, JobStep(n, log, p, j, c).cell)
  {
  }

  /** The task reconciler touches pods, claim, service and, at most, the status of the local task. */
  ghost predicate TaskChange(log: seq<Event>, p: nat, j: nat, c: Cell, d: Cell) {
    && d.job == c.job && d.activated == c.activated && d.jobPc == c.jobPc
    && (d.tasks == c.tasks || (p in c.tasks && Entry(log, j, p).Some? && d.tasks == c.tasks[p := Entry(log, j, p).value]))
  }

  lemma TaskChangeKeeps(n: nat, log: seq<Event>, p: nat, j: nat, c: Cell, d: Cell)
    requires p < n && ValidLog(n, log) && TaskChange(log, p, j, c, d)
    requires JobInv(n, log, p, j, c) && JobPcInv(n, log, p, j, c) && TasksInv(n, log, p, j, c)
    ensures JobInv(n, log, p, j, d) && JobPcInv(n, log, p, j, d) && TasksInv(n, log, p, j, d)
  {
    if Entry(log, j, p).Some? {
      EntryWasPut(n, log, j, p);
    }
  }

  lemma TaskStepChange(n: nat, log: seq<Event>, p: nat, j: nat, c: Cell, u: set<nat>)
    ensures TaskChange(log, p, j, c, TaskStep(n, log, p, j, c, u).cell)
  {
    if c.taskPc.Act? {
      ActStepChange(n, p, c, c.taskPc.status, u);
    }
  }

  lemma ActStepChange(n: nat, p: nat, c: Cell, st: TaskStatus, u: set<nat>)
    ensures ActStep(n, p, c, st, u)
            == c.(owned := ActStep(n, p, c, st, u).owned, taskPc := ActStep(n, p, c, st, u).taskPc)
  {
  }

  lemma TaskStepPods(n: nat, log: seq<Event>, p: nat, j: nat, c: Cell, u: set<nat>)
    requires PodsInv(n, log, p, j, c) && TaskPcInv(n, log, p, j, c)
    ensures PodsInv(n, log, p, j, TaskStep(n, log, p, j, c, u).cell)
  {
  }

  /** The local endpoint is among all N endpoints, so it was published. */
  lemma OwnEndpoint(n: nat, p: nat, c: Cell, st: TaskStatus, u: set<nat>)
    requires p < n && p in c.tasks && c.tasks[p] == st
    requires |Endpoints(TasksForJob(n, c.tasks, u))| == n
    ensures st.endpoint != ""
  {
    FullTable(n, Endpoints(TasksForJob(n, c.tasks, u)));
    assert p in Endpoints(TasksForJob(n, c.tasks, u));
  }

  lemma TaskStepPc(n: nat, log: seq<Event>, p: nat, j: nat, c: Cell, u: set<nat>)
    requires p < n && TasksInv(n, log, p, j, c) && PodsInv(n, log, p, j, c) && TaskPcInv(n, log, p, j, c)
    requires !c.taskPc.PutEntry? && !c.taskPc.WriteStatus? && !c.taskPc.Act?
    requires c.taskPc.Collect? && |Endpoints(TasksForJob(n, c.tasks, u))| == n ==> c.taskPc.status.endpoint != ""
    ensures TaskPcInv(n, log, p, j, TaskStep(n, log, p, j, c, u).cell)
  {
  }

  lemma ActStepPc(n: nat, log: seq<Event>, p: nat, j: nat, c: Cell, st: TaskStatus, u: set<nat>)
    requires p < n && PodsInv(n, log, p, j, c) && Settled(log, p, j, c, st)
    requires Announced(n, log, j, Endpoints(TasksForJob(n, c.tasks, u)))
    ensures TaskPcInv(n, log, p, j, ActStep(n, p, c, st, u))
  {
  }

  lemma TaskStepKeeps(n: nat, log: seq<Event>, p: nat, j: nat, c: Cell, u: set<nat>)
    requires p < n && ValidLog(n, log) && CellInv(n, log, p, j, c)
    ensures GoodEffect(n, log, p, j, TaskStep(n, log, p, j, c, u))
  {
    var eff := TaskStep(n, log, p, j, c, u);
    if c.taskPc.PutEntry? || c.taskPc.WriteStatus? {
      TaskStepPut(n, log, p, j, c, u);
    } else {
      assert eff.puts == [] && log + eff.puts == log;
      EndpointsSound(n, log, p, j, c, u);
      if c.taskPc.Collect? && |Endpoints(TasksForJob(n, c.tasks, u))| == n {
        OwnEndpoint(n, p, c, c.taskPc.status, u);
      }
      TaskStepChange(n, log, p, j, c, u);
      TaskChangeKeeps(n, log, p, j, c, eff.cell);
      TaskStepPods(n, log, p, j, c, u);
      if c.taskPc.Act? {
        ActStepPc(n, log, p, j, c, c.taskPc.status, u);
      } else {
        TaskStepPc(n, log, p, j, c, u);
      }
    }
  }

  lemma TaskStepPut(n: nat, log: seq<Event>, p: nat, j: nat, c: Cell, u: set<nat>)
    requires p < n && ValidLog(n, log) && CellInv(n, log, p, j, c) && (c.taskPc.PutEntry? || c.taskPc.WriteStatus?)
    ensures GoodEffect(n, log, p, j, TaskStep(n, log, p, j, c, u))
  {
    var st := if c.taskPc.PutEntry? then FIRST else c.taskPc.status;
    var d := c.(taskPc := if c.taskPc.PutEntry? then GetStatus else TaskIdle);
    var e := EntryPut(j, p, st);
    assert TaskStep(n, log, p, j, c, u) == Effect(d, [e]);
    EntryPublished(n, log, p, j, d, e);
  }

  lemma EntryPublished(n: nat, log: seq<Event>, p: nat, j: nat, c: Cell, e: Event)
    requires ValidLog(n, log) && ValidEvent(n, log, e) && e.EntryPut? && e.job == j && e.player == p
    requires p in c.tasks && Backed(c.owned, e.status) && (c.taskPc == GetStatus || c.taskPc == TaskIdle)
    requires JobInv(n, log, p, j, c) && JobPcInv(n, log, p, j, c) && TasksInv(n, log, p, j, c) && PodsInv(n, log, p, j, c)
    ensures CellInv(n, log + [e], p, j, c)
  {
    JobFrame(n, log, p, j, c, e);
    JobPcFrame(n, log, p, j, c, e);
    TasksFrame(n, log, p, j, c, e);
    PodsFrame(n, log, p, j, c, e);
    assert Entry(log + [e], j, p).Some? by {
      Append(log, e);
    }
  }

  lemma EnvironmentKeeps(n: nat, log: seq<Event>, p: nat, j: nat, c: Cell, a: Action)
    requires CellInv(n, log, p, j, c) && IsCellAction(a) && !a.JobTick? && !a.TaskTick?
    ensures CellInv(n, log, p, j, CellStep(n, log, p, j, c, a).cell)
  {
    var d := CellStep(n, log, p, j, c, a).cell;
    assert JobInv(n, log, p, j, d) && JobPcInv(n, log, p, j, d);
    assert TasksInv(n, log, p, j, d) && PodsInv(n, log, p, j, d);
  }

  /** A cell action keeps the invariant of its cell and never removes a task. */
  lemma CellStepKeeps(n: nat, log: seq<Event>, p: nat, j: nat, c: Cell, a: Action)
    requires p < n && ValidLog(n, log) && CellInv(n, log, p, j, c) && IsCellAction(a)
    ensures GoodEffect(n, log, p, j, CellStep(n, log, p, j, c, a))
    ensures c.tasks.Keys <= CellStep(n, log, p, j, c, a).cell.tasks.Keys
  {
    if a.JobTick? {
      JobStepKeeps(n, log, p, j, c);
      if c.jobPc.CreateTask? {
      } else {
        assert JobStep(n, log, p, j, c).cell.tasks == c.tasks;
      }
    } else if a.TaskTick? {
      TaskStepKeeps(n, log, p, j, c, a.unread);
      TaskStepChange(n, log, p, j, c, a.unread);
    } else {
      EnvironmentKeeps(n, log, p, j, c, a);
      assert log + [] == log;
    }
  }

  /** What a cell may put. */
  ghost predicate OwnPut(n: nat, log: seq<Event>, p: nat, j: nat, e: Event) {
    && ValidEvent(n, log, e) && (e.RosterPut? || e.EntryPut?)
    && e.job == j && (if e.RosterPut? then p == 0 else e.player == p)
  }

  lemma CellStepPuts(n: nat, log: seq<Event>, p: nat, j: nat, c: Cell, a: Action)
    requires p < n && ValidLog(n, log) && CellInv(n, log, p, j, c) && IsCellAction(a)
    ensures var puts := CellStep(n, log, p, j, c, a).puts;
            puts == [] || (|puts| == 1 && puts == [puts[0]] && OwnPut(n, log, p, j, puts[0]))
  {
    var puts := CellStep(n, log, p, j, c, a).puts;
    CellStepKeeps(n, log, p, j, c, a);
    assert puts != [] ==> puts[0] in puts;
  }

  // The watcher.

  lemma {:induction false} RosterWasPut(n: nat, log: seq<Event>, j: nat, spec: JobSpec)
    requires ValidLog(n, log) && RosterPut(j, spec) in log
    ensures Roster(log, j) == Some(spec)
  {
    var before, e := log[..|log| - 1], log[|log| - 1];
    assert log == before + [e];
    Append(before, e);
    if RosterPut(j, spec) in before {
      RosterWasPut(n, before, j, spec);
    }
  }

  /** The proxy table of a cell after an event: the only change is a status that etcd held for a remote player. */
  ghost predicate WatchChange(n: nat, log: seq<Event>, p: nat, j: nat, c: Cell, d: Cell) {
    && d == c.(job := d.job, tasks := d.tasks)
    && (d.job == c.job || (c.job.None? && p != 0 && d.job.Some? && d.job.value.state == JobUnset
                           && Roster(log, j) == Some(d.job.value.spec)))
    && (d.tasks == c.tasks ||
        exists q: nat, st {:trigger c.tasks[q := st]} ::
          && d.tasks == c.tasks[q := st] && q != p && q < n && c.job.Some? && Roster(log, j).Some? && Entry(log, j, q).Some?
          && (st == BLANK || EntryPut(j, q, st) in log))
  }

  lemma WatchChangeKeeps(n: nat, log: seq<Event>, p: nat, j: nat, c: Cell, d: Cell)
    requires CellInv(n, log, p, j, c) && WatchChange(n, log, p, j, c, d)
    ensures CellInv(n, log, p, j, d) && c.tasks.Keys <= d.tasks.Keys
  {
    assert JobInv(n, log, p, j, d) && JobPcInv(n, log, p, j, d);
    assert TasksInv(n, log, p, j, d) && PodsInv(n, log, p, j, d);
  }

  lemma HandleEventChange(n: nat, log: seq<Event>, p: nat, j: nat, c: Cell, e: Event)
    requires ValidLog(n, log) && CellInv(n, log, p, j, c) && e in log && IsRosterEvent(e) && e.job == j
    ensures WatchChange(n, log, p, j, c, HandleEvent(p, c, e))
    ensures !e.EntryDelete? && !e.RosterDelete?
  {
    NoDeletes(n, log);
    var d := HandleEvent(p, c, e);
    match e {
      case RosterPut(_, spec) => RosterWasPut(n, log, j, spec);
      case EntryPut(_, q, st) =>
        HeldIsOvertaken(n, log, j, q, st);
        if q != p && c.job.Some? {
          assert d.tasks == c.tasks[q := if q in c.tasks then st else BLANK];
        }
      case _ =>
    }
  }

  lemma CreatedChange(n: nat, log: seq<Event>, p: nat, j: nat, c: Cell, q: nat, st: TaskStatus)
    requires ValidLog(n, log) && CellInv(n, log, p, j, c) && EntryPut(j, q, st) in log && q != p && q in c.tasks
    ensures WatchChange(n, log, p, j, c, c.(tasks := c.tasks[q := FIRST]))
  {
    HeldIsOvertaken(n, log, j, q, st);
    FirstWasPut(n, log, j, q);
    assert c.(tasks := c.tasks[q := FIRST]).tasks == c.tasks[q := FIRST];
  }

  ghost predicate CellsInv(n: nat, m: nat, log: seq<Event>, p: nat, v: Vcp) {
    |v.cells| == m && forall j :: 0 <= j < m ==> CellInv(n, log, p, j, v.cells[j])
  }

  ghost predicate GoodWatch(n: nat, m: nat, log: seq<Event>, p: nat, eff: WatchEffect) {
    && (eff.puts == []
        || (|eff.puts| == 1 && eff.puts[0].HeadPut? && eff.puts[0].player == p && ValidEvent(n, log, eff.puts[0])))
    && CellsInv(n, m, log, p, eff.vcp)
    && WatchInv(log + eff.puts, p, eff.vcp)
  }

  lemma DispatchKeeps(n: nat, m: nat, log: seq<Event>, p: nat, v: Vcp)
    requires p < n && ValidLog(n, log) && CellsInv(n, m, log, p, v) && WatchInv(log, p, v)
    requires v.watcher.Handling? && v.watcher.at < v.watcher.upto && IsRosterEvent(log[v.watcher.at])
    requires log[v.watcher.at].job < m
    ensures GoodWatch(n, m, log, p, WatchStep(log, p, v))
  {
    var e := log[v.watcher.at];
    var c := v.cells[e.job];
    assert log + [] == log;
    if v.watcher.created {
      CreatedChange(n, log, p, e.job, c, e.player, e.status);
      WatchChangeKeeps(n, log, p, e.job, c, c.(tasks := c.tasks[e.player := FIRST]));
    } else {
      HandleEventChange(n, log, p, e.job, c, e);
      WatchChangeKeeps(n, log, p, e.job, c, HandleEvent(p, c, e));
    }
  }

  lemma OperatorStepKeeps(n: nat, m: nat, log: seq<Event>, p: nat, v: Vcp, a: Action)
    requires p < n && ValidLog(n, log) && CellsInv(n, m, log, p, v) && WatchInv(log, p, v) && !IsCellAction(a)
    ensures GoodWatch(n, m, log, p, OperatorStep(log, p, v, a))
  {
    assert log + [] == log;
    match a {
      case WatchTick(_) => WatchStepKeeps(n, m, log, p, v);
      case Crash(_) => RestartKeeps(n, m, log, p, v);
      case _ =>
    }
  }

  lemma WatchStepKeeps(n: nat, m: nat, log: seq<Event>, p: nat, v: Vcp)
    requires p < n && ValidLog(n, log) && CellsInv(n, m, log, p, v) && WatchInv(log, p, v)
    ensures GoodWatch(n, m, log, p, WatchStep(log, p, v))
  {
    assert log + [] == log;
    if v.watcher.Handling? {
      if v.watcher.at >= v.watcher.upto {
        Append(log, HeadPut(p, v.watcher.upto));
      } else if IsRosterEvent(log[v.watcher.at]) && log[v.watcher.at].job < m {
        DispatchKeeps(n, m, log, p, v);
      }
    }
  }

  lemma RestartKeeps(n: nat, m: nat, log: seq<Event>, p: nat, v: Vcp)
    requires CellsInv(n, m, log, p, v)
    ensures CellsInv(n, m, log, p, v.(watcher := Reading, cells := Restarted(v.cells)))
  {
    forall j | 0 <= j < m ensures CellInv(n, log, p, j, Restarted(v.cells)[j]) {
      assert CellInv(n, log, p, j, v.cells[j]);
      EnvironmentKeeps(n, log, p, j, v.cells[j], JobAbort(p, j));
      EnvironmentKeeps(n, log, p, j, v.cells[j].(jobPc := JobIdle), TaskAbort(p, j));
    }
  }

  // The whole system.

  lemma CellsFrame(n: nat, m: nat, log: seq<Event>, p: nat, v: Vcp, e: Event)
    requires ValidLog(n, log) && ValidEvent(n, log, e) && CellsInv(n, m, log, p, v)
    requires e.HeadPut? || (e.RosterPut? && p != 0) || (e.EntryPut? && e.player != p)
    ensures CellsInv(n, m, log + [e], p, v)
  {
    forall j | 0 <= j < m ensures CellInv(n, log + [e], p, j, v.cells[j]) {
      CellFrame(n, log, p, j, v.cells[j], e);
    }
  }

  lemma WatchFrame(log: seq<Event>, p: nat, v: Vcp, e: Event)
    requires WatchInv(log, p, v) && !(e.HeadPut? && e.player == p)
    ensures WatchInv(log + [e], p, v)
  {
    Append(log, e);
  }

  lemma InitInv(n: nat, m: nat)
    ensures Inv(n, m, Init(n, m))
  {
    forall p, j | 0 <= p < n && 0 <= j < m ensures CellInv(n, [], p, j, Init(n, m).vcps[p].cells[j]) {
      assert Init(n, m).vcps[p].cells[j] == EMPTY;
    }
  }

  /** Putting an event of cell (p, j) leaves every other cell and every watcher intact. */
  lemma OthersFrame(n: nat, m: nat, s: State, p: nat, j: nat, e: Event)
    requires Inv(n, m, s) && ValidEvent(n, s.log, e) && (e.RosterPut? || e.EntryPut?)
    requires e.job == j && (if e.RosterPut? then p == 0 else e.player == p)
    ensures forall r, k :: 0 <= r < n && 0 <= k < m && (r != p || k != j) ==>
              CellInv(n, s.log + [e], r, k, s.vcps[r].cells[k])
    ensures forall r :: 0 <= r < n ==> WatchInv(s.log + [e], r, s.vcps[r])
  {
    forall r, k | 0 <= r < n && 0 <= k < m && (r != p || k != j)
      ensures CellInv(n, s.log + [e], r, k, s.vcps[r].cells[k])
    {
      CellFrame(n, s.log, r, k, s.vcps[r].cells[k], e);
    }
    forall r | 0 <= r < n ensures WatchInv(s.log + [e], r, s.vcps[r]) {
      WatchFrame(s.log, r, s.vcps[r], e);
    }
  }

  lemma WithCellKeeps(n: nat, m: nat, s: State, p: nat, j: nat, eff: Effect)
    requires Inv(n, m, s) && p < n && j < m && GoodEffect(n, s.log, p, j, eff)
    requires s.vcps[p].cells[j].tasks.Keys <= eff.cell.tasks.Keys
    ensures Inv(n, m, WithCell(s, p, j, eff.cell, eff.puts))
  {
    var t := WithCell(s, p, j, eff.cell, eff.puts);
    if eff.puts == [] {
      assert t.log == s.log;
    } else {
      var e := eff.puts[0];
      assert eff.puts == [e] && e in eff.puts;
      ValidAppend(n, s.log, e);
      OthersFrame(n, m, s, p, j, e);
    }
    forall r | 0 <= r < n ensures WatchInv(t.log, r, t.vcps[r]) {
      assert WatchInv(t.log, r, s.vcps[r]);
    }
  }

  lemma CellActionKeeps(n: nat, m: nat, s: State, a: Action)
    requires Inv(n, m, s) && IsCellAction(a) && PlayerOf(a) < n && a.job < m
    ensures Inv(n, m, Next(n, m, s, a))
  {
    var p, j := PlayerOf(a), a.job;
    CellStepKeeps(n, s.log, p, j, s.vcps[p].cells[j], a);
    WithCellKeeps(n, m, s, p, j, CellStep(n, s.log, p, j, s.vcps[p].cells[j], a));
  }

  lemma OperatorActionKeeps(n: nat, m: nat, s: State, a: Action)
    requires Inv(n, m, s) && !IsCellAction(a) && PlayerOf(a) < n
    ensures Inv(n, m, Next(n, m, s, a))
  {
    var p := PlayerOf(a);
    var eff := OperatorStep(s.log, p, s.vcps[p], a);
    var t := Next(n, m, s, a);
    OperatorStepKeeps(n, m, s.log, p, s.vcps[p], a);
    if eff.puts == [] {
      assert t.log == s.log;
    } else {
      var e := eff.puts[0];
      assert eff.puts == [e];
      ValidAppend(n, s.log, e);
      CellsFrame(n, m, s.log, p, eff.vcp, e);
      forall r | 0 <= r < n && r != p ensures CellsInv(n, m, t.log, r, s.vcps[r]) && WatchInv(t.log, r, s.vcps[r]) {
        CellsFrame(n, m, s.log, r, s.vcps[r], e);
        WatchFrame(s.log, r, s.vcps[r], e);
      }
    }
  }

  lemma NextKeeps(n: nat, m: nat, s: State, a: Action)
    requires Inv(n, m, s)
    ensures Inv(n, m, Next(n, m, s, a))
  {
    if PlayerOf(a) < n && (IsCellAction(a) ==> a.job < m) {
      if IsCellAction(a) {
        CellActionKeeps(n, m, s, a);
      } else {
        OperatorActionKeeps(n, m, s, a);
      }
    }
  }

  /** The invariant holds after every run. */
  lemma {:induction false} Reachable(n: nat, m: nat, acts: seq<Action>)
    ensures Inv(n, m, Run(n, m, acts))
  {
    if acts == [] {
      InitInv(n, m);
    } else {
      Reachable(n, m, acts[..|acts| - 1]);
      NextKeeps(n, m, Run(n, m, acts[..|acts| - 1]), acts[|acts| - 1]);
    }
  }
}

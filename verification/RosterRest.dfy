/** Where the roster protocol comes to rest, in runs in which no handler has failed; crashes, replays and failing calls
    may be among what has happened before. A state is quiet if no sequence of operator steps can change anything in
    etcd, Kubernetes or Castor. Operators always reach a quiet state; and once pods have finished and load balancers
    have addresses, a quiet state has every submitted job Completed on all VCPs or Failed on all VCPs. */
module RosterRest {
  import opened Wrappers
  import opened EtcdLog
  import opened RosterModel
  import opened RosterSafety
  import opened RosterReplay
  import opened RosterClean
  import opened RosterTheorems
  import opened RosterConvergence
  import opened RosterSettle

  ghost predicate Quiet(n: nat, m: nat, s: State)
    requires Shape(n, m, s)
  {
    forall acts :: OperatorTicks(acts) ==> SameWorld(s, After(n, m, s, acts))
  }

  ghost predicate AtRest(n: nat, m: nat, s: State) {
    Steady(n, m, s) && Quiet(n, m, s)
  }

  // Reaching a quiet state.

  lemma {:induction false} TicksProgress(n: nat, m: nat, s: State, acts: seq<Action>)
    requires Steady(n, m, s) && OperatorTicks(acts)
    ensures Steady(n, m, After(n, m, s, acts)) && Lower(n, s, After(n, m, s, acts))
    decreases |acts|
  {
    if acts != [] {
      var t := Next(n, m, s, acts[0]);
      assert acts[0] in acts;
      Progress(n, m, s, acts[0]);
      CleanStep(n, m, s, acts[0]);
      TicksProgress(n, m, t, acts[1..]);
      LowerTransitive(n, s, t, After(n, m, t, acts[1..]));
    }
  }

  ghost predicate Lower(n: nat, s: State, t: State) {
    Budget(n, t) <= Budget(n, s) && (Budget(n, t) == Budget(n, s) ==> SameWorld(s, t))
  }

  lemma LowerTransitive(n: nat, s: State, t: State, u: State)
    requires Lower(n, s, t) && Lower(n, t, u)
    ensures Lower(n, s, u)
  {
  }

  lemma {:induction false} QuietFromSteady(n: nat, m: nat, s: State) returns (acts: seq<Action>)
    requires Steady(n, m, s)
    ensures OperatorTicks(acts) && AtRest(n, m, After(n, m, s, acts))
    decreases Budget(n, s)
  {
    acts := [];
    if !Quiet(n, m, s) {
      var first :| OperatorTicks(first) && !SameWorld(s, After(n, m, s, first));
      TicksProgress(n, m, s, first);
      BudgetIsNatural(n, m, After(n, m, s, first));
      var rest := QuietFromSteady(n, m, After(n, m, s, first));
      AfterConcat(n, m, s, first, rest);
      acts := first + rest;
    }
  }

  /** From every state of a run without handler failures, operator steps alone lead to a quiet state. */
  lemma QuietIsReachable(n: nat, m: nat, acts: seq<Action>) returns (more: seq<Action>)
    requires DropFree(acts)
    ensures OperatorTicks(more) && AtRest(n, m, After(n, m, Run(n, m, acts), more))
  {
    more := Settles(n, m, acts);
    var rest := QuietFromSteady(n, m, After(n, m, Run(n, m, acts), more));
    AfterConcat(n, m, Run(n, m, acts), more, rest);
    more := more + rest;
  }

  // Single steps from a quiet state.

  lemma Tick(n: nat, m: nat, s: State, a: Action)
    requires AtRest(n, m, s) && OperatorTick(a)
    ensures AtRest(n, m, Next(n, m, s, a)) && SameWorld(s, Next(n, m, s, a))
  {
    var t := Next(n, m, s, a);
    CleanStep(n, m, s, a);
    assert After(n, m, s, [a]) == t;
    assert OperatorTicks([a]);
    forall acts | OperatorTicks(acts) ensures SameWorld(t, After(n, m, t, acts)) {
      assert ([a] + acts)[1..] == acts;
      assert OperatorTicks([a] + acts);
      assert SameWorld(s, After(n, m, s, [a] + acts));
    }
  }

  /** The next k steps of the job reconciler put nothing and leave the durable part of the cell alone. */
  ghost predicate JobStuck(n: nat, log: seq<Event>, p: nat, j: nat, c: Cell, k: nat)
    decreases k
  {
    k > 0 ==>
      var eff := JobStep(n, log, p, j, c);
      eff.puts == [] && Durable(eff.cell) == Durable(c) && JobStuck(n, log, p, j, eff.cell, k - 1)
  }

  ghost predicate TaskStuck(n: nat, log: seq<Event>, p: nat, j: nat, c: Cell, k: nat)
    decreases k
  {
    k > 0 ==>
      var eff := TaskStep(n, log, p, j, c, {});
      eff.puts == [] && Durable(eff.cell) == Durable(c) && TaskStuck(n, log, p, j, eff.cell, k - 1)
  }

  lemma {:induction false} JobIsStuck(n: nat, m: nat, s: State, p: nat, j: nat, k: nat)
    requires AtRest(n, m, s) && p < n && j < m
    ensures JobStuck(n, s.log, p, j, s.vcps[p].cells[j], k)
    decreases k
  {
    if k > 0 {
      Tick(n, m, s, JobTick(p, j));
      JobIsStuck(n, m, Next(n, m, s, JobTick(p, j)), p, j, k - 1);
    }
  }

  lemma {:induction false} TaskIsStuck(n: nat, m: nat, s: State, p: nat, j: nat, k: nat)
    requires AtRest(n, m, s) && p < n && j < m
    ensures TaskStuck(n, s.log, p, j, s.vcps[p].cells[j], k)
    decreases k
  {
    if k > 0 {
      Tick(n, m, s, TaskTick(p, j, {}));
      TaskIsStuck(n, m, Next(n, m, s, TaskTick(p, j, {})), p, j, k - 1);
    }
  }

  // The job reconciler at rest.

  /** A reconciler that is stuck comes to the start of its next pass, still stuck. */
  lemma {:induction false} SettleJob(n: nat, log: seq<Event>, p: nat, j: nat, c: Cell, k: nat) returns (d: Cell)
    requires JobStuck(n, log, p, j, c, JobDistance(c.jobPc) + k)
    ensures JobStuck(n, log, p, j, d, k) && Durable(d) == Durable(c) && d.jobPc == JobIdle
    decreases JobDistance(c.jobPc)
  {
    d := c;
    if c.jobPc != JobIdle {
      d := JobStep(n, log, p, j, c).cell;
      assert JobStuck(n, log, p, j, d, JobDistance(c.jobPc) + k - 1);
      var more := JobDistance(c.jobPc) - 1 - JobDistance(d.jobPc);
      d := SettleJob(n, log, p, j, d, k + more);
      FewerJobSteps(n, log, p, j, d, k, more);
    }
  }

  /** A job whose reconciler has nothing to do: its roster is published (at the latest by player 0), its local task
      exists and its state is what the tasks say: Pending, Running or Failed exactly if they say so, Completed if they
      say so and the chunk to be activated can be identified. */
  ghost predicate JobDone(n: nat, log: seq<Event>, p: nat, j: nat, c: Cell) {
    c.job.Some? && (p == 0 || Roster(log, j).Some?) ==>
      && Roster(log, j).Some?
      && p in c.tasks
      && (forall st :: TasksSay(n, c.tasks, st) ==>
            c.job.value.state == st || (st == JobCompleted && !c.job.value.spec.idIsUuid))
  }

  lemma StuckJob(n: nat, log: seq<Event>, p: nat, j: nat, c: Cell)
    requires JobStuck(n, log, p, j, c, 6) && c.jobPc == JobIdle
    ensures JobDone(n, log, p, j, c)
  {
    if c.job.Some? && (p == 0 || Roster(log, j).Some?) {
      var c1 := JobStep(n, log, p, j, c).cell;
      var c2 := JobStep(n, log, p, j, c1).cell;
      assert JobStuck(n, log, p, j, c1, 5);
      assert JobStuck(n, log, p, j, c2, 4);
      assert Roster(log, j).Some?;
      var c3 := JobStep(n, log, p, j, c2).cell;
      assert JobStuck(n, log, p, j, c3, 3);
      StuckList(n, log, p, j, c3, c.job.value);
    }
  }

  /** The last steps: create the missing local task, or derive the state, activate and update. */
  lemma StuckList(n: nat, log: seq<Event>, p: nat, j: nat, c: Cell, job: Job)
    requires JobStuck(n, log, p, j, c, 3) && c.job == Some(job)
    requires c.jobPc == if p in c.tasks then ListTasks(job) else CreateTask
    ensures p in c.tasks
    ensures forall st :: TasksSay(n, c.tasks, st) ==>
              job.state == st || (st == JobCompleted && !job.spec.idIsUuid)
  {
    var _ := AggregateSays(n, c.tasks, job.state);
    var c1 := JobStep(n, log, p, j, c).cell;
    var c2 := JobStep(n, log, p, j, c1).cell;
    assert JobStuck(n, log, p, j, c1, 2);
    assert JobStuck(n, log, p, j, c2, 1);
  }

  lemma JobAtRest(n: nat, m: nat, s: State, p: nat, j: nat)
    requires AtRest(n, m, s) && p < n && j < m
    ensures JobDone(n, s.log, p, j, s.vcps[p].cells[j])
  {
    var c := s.vcps[p].cells[j];
    JobIsStuck(n, m, s, p, j, JobDistance(c.jobPc) + 6);
    var d := SettleJob(n, s.log, p, j, c, 6);
    StuckJob(n, s.log, p, j, d);
    assert c.job == Durable(c).job && c.tasks == Durable(c).tasks;
    assert d.job == Durable(d).job && d.tasks == Durable(d).tasks;
  }

  // The task reconciler at rest.

  lemma {:induction false} SettleTask(n: nat, log: seq<Event>, p: nat, j: nat, c: Cell, k: nat) returns (d: Cell)
    requires TaskStuck(n, log, p, j, c, TaskDistance(c.taskPc) + k)
    ensures TaskStuck(n, log, p, j, d, k) && Durable(d) == Durable(c) && d.taskPc == TaskIdle
    decreases TaskDistance(c.taskPc)
  {
    d := c;
    if c.taskPc != TaskIdle {
      d := TaskStep(n, log, p, j, c, {}).cell;
      assert TaskStuck(n, log, p, j, d, TaskDistance(c.taskPc) + k - 1);
      TaskDistanceFalls(n, log, p, j, c, {});
      var more := TaskDistance(c.taskPc) - 1 - TaskDistance(d.taskPc);
      d := SettleTask(n, log, p, j, d, k + more);
      FewerTaskSteps(n, log, p, j, d, k, more);
    }
  }

  /** Pods have run to an end, and load balancers have an address. */
  predicate Finished(ph: Phase) {
    ph == PodSucceeded || ph == PodFailed
  }

  predicate Served(o: Owned) {
    && (o.generator.Some? ==> Finished(o.generator.value.phase))
    && (o.provisioner.Some? ==> Finished(o.provisioner.value))
    && (o.service.Some? ==> Addressed(o.service.value))
  }

  ghost predicate Waits(n: nat, p: nat, c: Cell, st: TaskStatus) {
    && st.state == Preparing && p in Endpoints(TasksForJob(n, c.tasks, {}))
    && |Endpoints(TasksForJob(n, c.tasks, {}))| != n
  }

  /** A task whose reconciler has nothing to do: the local task shows the roster entry, which is final or waits, its
      own endpoint published, for endpoints of others. */
  ghost predicate TaskDone(n: nat, log: seq<Event>, p: nat, j: nat, c: Cell) {
    && Entry(log, j, p).Some? && p in c.tasks && c.tasks[p] == Entry(log, j, p).value
    && (Terminal(Entry(log, j, p).value.state) || Waits(n, p, c, Entry(log, j, p).value))
  }

  /** What the task reconciler may rely on. */
  ghost predicate Grounded(n: nat, log: seq<Event>, p: nat, j: nat, c: Cell) {
    && ValidLog(n, log) && c.job.Some? && p in c.tasks && Served(c.owned)
    && (Entry(log, j, p).Some? ==>
          && Backed(c.owned, Entry(log, j, p).value)
          && (Entry(log, j, p).value.state != Preparing ==> AllEndpoints(n, c.tasks)))
  }

  lemma StuckTask(n: nat, log: seq<Event>, p: nat, j: nat, c: Cell)
    requires TaskStuck(n, log, p, j, c, 9) && c.taskPc == TaskIdle && Grounded(n, log, p, j, c)
    ensures TaskDone(n, log, p, j, c)
  {
    var c1 := TaskStep(n, log, p, j, c, {}).cell;
    var c2 := TaskStep(n, log, p, j, c1, {}).cell;
    assert TaskStuck(n, log, p, j, c1, 8);
    assert TaskStuck(n, log, p, j, c2, 7);
    assert Entry(log, j, p).Some?;
    EntryWasPut(n, log, j, p);
    var st := Entry(log, j, p).value;
    var c3 := TaskStep(n, log, p, j, c2, {}).cell;
    assert c3.taskPc == RefreshTask(st);
    assert TaskStuck(n, log, p, j, c3, 6);
    var c4 := TaskStep(n, log, p, j, c3, {}).cell;
    assert c4.taskPc == Act(st) && c4.tasks == c.tasks[p := st];
    assert TaskStuck(n, log, p, j, c4, 5);
    assert Durable(c4) == Durable(c);
    assert c.tasks == Durable(c).tasks;
    StuckAct(n, log, p, j, c4, st);
  }

  lemma StuckAct(n: nat, log: seq<Event>, p: nat, j: nat, c: Cell, st: TaskStatus)
    requires TaskStuck(n, log, p, j, c, 5) && c.taskPc == Act(st) && Served(c.owned) && Backed(c.owned, st)
    requires st.state != Preparing ==> AllEndpoints(n, c.tasks)
    ensures Terminal(st.state) || Waits(n, p, c, st)
  {
    var c1 := TaskStep(n, log, p, j, c, {}).cell;
    assert TaskStuck(n, log, p, j, c1, 4);
    if st.state == Preparing {
      StuckEnsure(n, log, p, j, c1, st);
    } else {
      if st.state == Launching {
        FullTasks(n, c.tasks);
      }
      StuckWrite(n, log, p, j, c1, 4);
    }
  }

  lemma StuckEnsure(n: nat, log: seq<Event>, p: nat, j: nat, c: Cell, st: TaskStatus)
    requires TaskStuck(n, log, p, j, c, 4) && c.taskPc == EnsureService(st) && st.state == Preparing && Served(c.owned)
    ensures Waits(n, p, c, st)
  {
    var c1 := TaskStep(n, log, p, j, c, {}).cell;
    assert TaskStuck(n, log, p, j, c1, 3);
    assert c.owned == Durable(c).owned && c1.owned == Durable(c1).owned;
    assert c1.taskPc == Collect(st, c.owned.service.value);
    EndpointIs(c.owned.service.value);
    var c2 := TaskStep(n, log, p, j, c1, {}).cell;
    assert TaskStuck(n, log, p, j, c2, 2);
    StuckWrite(n, log, p, j, c2, 2);
  }

  /** A stuck reconciler is not about to create a pod or to write a status. */
  lemma StuckWrite(n: nat, log: seq<Event>, p: nat, j: nat, c: Cell, k: nat)
    requires TaskStuck(n, log, p, j, c, k) && k > 1
    ensures !c.taskPc.WriteStatus? && !c.taskPc.CreateGenerator? && !c.taskPc.CreateProvisioner?
  {
    assert TaskStuck(n, log, p, j, TaskStep(n, log, p, j, c, {}).cell, k - 1);
  }

  lemma TaskAtRest(n: nat, m: nat, s: State, p: nat, j: nat)
    requires AtRest(n, m, s) && p < n && j < m && p in s.vcps[p].cells[j].tasks && Served(s.vcps[p].cells[j].owned)
    ensures TaskDone(n, s.log, p, j, s.vcps[p].cells[j])
  {
    var c := s.vcps[p].cells[j];
    assert CellInv(n, s.log, p, j, c) && SteadyCell(n, s.log, p, j, c);
    TaskIsStuck(n, m, s, p, j, TaskDistance(c.taskPc) + 9);
    SettledTask(n, s.log, p, j, c);
  }

  lemma SettledTask(n: nat, log: seq<Event>, p: nat, j: nat, c: Cell)
    requires TaskStuck(n, log, p, j, c, TaskDistance(c.taskPc) + 9) && Grounded(n, log, p, j, c)
    ensures TaskDone(n, log, p, j, c)
  {
    var d := SettleTask(n, log, p, j, c, 9);
    assert c == Durable(c).(jobPc := c.jobPc, taskPc := c.taskPc);
    assert d == Durable(d).(jobPc := d.jobPc, taskPc := d.taskPc);
    StuckTask(n, log, p, j, d);
  }

  lemma FullTasks(n: nat, t: map<nat, TaskStatus>)
    requires Full(n, t)
    ensures |TasksForJob(n, t, {})| == n
  {
    FullSize(n, TasksForJob(n, t, {}));
    FullSet(n, TasksForJob(n, t, {}).Keys);
  }

  lemma {:induction false} FewerJobSteps(n: nat, log: seq<Event>, p: nat, j: nat, c: Cell, k: nat, more: nat)
    requires JobStuck(n, log, p, j, c, k + more)
    ensures JobStuck(n, log, p, j, c, k)
    decreases k
  {
    if k > 0 {
      FewerJobSteps(n, log, p, j, JobStep(n, log, p, j, c).cell, k - 1, more);
    }
  }

  lemma {:induction false} FewerTaskSteps(n: nat, log: seq<Event>, p: nat, j: nat, c: Cell, k: nat, more: nat)
    requires TaskStuck(n, log, p, j, c, k + more)
    ensures TaskStuck(n, log, p, j, c, k)
    decreases k
  {
    if k > 0 {
      FewerTaskSteps(n, log, p, j, TaskStep(n, log, p, j, c, {}).cell, k - 1, more);
    }
  }

  // The watcher at rest.

  predicate NothingAfter(log: seq<Event>, k: nat) {
    forall i :: k <= i < |log| ==> !IsRosterEvent(log[i])
  }

  /** A watcher cannot be in the middle of a response: it would go on and store the head. */
  lemma {:induction false} NotHandling(n: nat, m: nat, s: State, p: nat)
    requires AtRest(n, m, s) && p < n
    ensures !s.vcps[p].watcher.Handling?
    decreases if s.vcps[p].watcher.Handling? then s.vcps[p].watcher.upto - s.vcps[p].watcher.at else 0,
              if s.vcps[p].watcher.Handling? && !s.vcps[p].watcher.created then 1 else 0
  {
    var v := s.vcps[p];
    if v.watcher.Handling? {
      assert WatchInv(s.log, p, v);
      var t := Next(n, m, s, WatchTick(p));
      Tick(n, m, s, WatchTick(p));
      if v.watcher.at < v.watcher.upto {
        NotHandling(n, m, t, p);
      }
    }
  }

  /** Every roster event has been dispatched. */
  lemma WatcherAtRest(n: nat, m: nat, s: State, p: nat)
    requires AtRest(n, m, s) && p < n
    ensures s.vcps[p].done <= |s.log| && NothingAfter(s.log, s.vcps[p].done)
  {
    var v := s.vcps[p];
    NotHandling(n, m, s, p);
    assert WatchInv(s.log, p, v);
    if v.watcher.Reading? {
      var t := Next(n, m, s, WatchTick(p));
      Tick(n, m, s, WatchTick(p));
      assert t.vcps[p].watcher == Waiting(Head(s.log, p), Head(s.log, p)) && t.log == s.log;
      WaitingAtRest(n, m, t, p);
    } else {
      WaitingAtRest(n, m, s, p);
    }
  }

  lemma WaitingAtRest(n: nat, m: nat, s: State, p: nat)
    requires AtRest(n, m, s) && p < n && s.vcps[p].watcher.Waiting?
    ensures NothingAfter(s.log, s.vcps[p].watcher.at)
  {
    var v := s.vcps[p];
    assert WatchInv(s.log, p, v);
    if !NothingAfter(s.log, v.watcher.at) {
      var t := Next(n, m, s, Receive(p, |s.log|));
      Tick(n, m, s, Receive(p, |s.log|));
      assert t.vcps[p].watcher.Handling?;
      NotHandling(n, m, t, p);
    }
  }

  lemma {:induction false} NothingMore(log: seq<Event>, k: nat, j: nat, q: nat)
    requires k <= |log| && NothingAfter(log, k)
    ensures Entry(log, j, q) == Entry(log[..k], j, q) && Roster(log, j) == Roster(log[..k], j)
    decreases |log|
  {
    if k == |log| {
      assert log[..k] == log;
    } else {
      var before := log[..|log| - 1];
      assert log[|log| - 1].HeadPut?;
      NothingMore(before, k, j, q);
      assert before[..k] == log[..k];
    }
  }

  // Putting it together.

  ghost predicate TableShows(n: nat, log: seq<Event>, j: nat, t: map<nat, TaskStatus>) {
    && (forall q :: q in t ==> q < n)
    && (forall q :: 0 <= q < n ==> Shows(t, q, Entry(log, j, q)))
  }

  /** At rest every VCP has the job, both reconcilers have nothing to do, and the task table is what etcd holds. */
  ghost predicate Ready(n: nat, log: seq<Event>, p: nat, j: nat, c: Cell) {
    && c.job.Some? && Roster(log, j).Some?
    && c.job.value.spec == Roster(log, j).value
    && (c.job.value.state == JobCompleted ==> c.activated)
    && (c.activated ==> c.job.value.spec.idIsUuid)
    && (c.job.value.state == JobFailed ==> SomeFailed(n, log, j))
    && JobDone(n, log, p, j, c) && TaskDone(n, log, p, j, c) && TableShows(n, log, j, c.tasks)
    && Published(log, j, p) != ""
  }

  lemma CellAtRest(n: nat, m: nat, s: State, p: nat, j: nat)
    requires AtRest(n, m, s) && p < n && j < m && Roster(s.log, j).Some? && Served(s.vcps[p].cells[j].owned)
    ensures Ready(n, s.log, p, j, s.vcps[p].cells[j])
  {
    var c := s.vcps[p].cells[j];
    assert CellInv(n, s.log, p, j, c);
    JobArrived(n, m, s, p, j);
    JobAtRest(n, m, s, p, j);
    TaskAtRest(n, m, s, p, j);
    TableAtRest(n, m, s, p, j);
    OwnEndpointPublished(n, s.log, p, j, c);
  }

  lemma JobArrived(n: nat, m: nat, s: State, p: nat, j: nat)
    requires AtRest(n, m, s) && p < n && j < m && Roster(s.log, j).Some?
    ensures s.vcps[p].cells[j].job.Some?
  {
    var v := s.vcps[p];
    WatcherAtRest(n, m, s, p);
    NothingMore(s.log, v.done, j, p);
    assert WatchInv(s.log, p, v) && TableInv(n, m, s.log, p, v);
  }

  lemma TableAtRest(n: nat, m: nat, s: State, p: nat, j: nat)
    requires AtRest(n, m, s) && p < n && j < m && TaskDone(n, s.log, p, j, s.vcps[p].cells[j])
    ensures TableShows(n, s.log, j, s.vcps[p].cells[j].tasks)
  {
    var c := s.vcps[p].cells[j];
    assert CellInv(n, s.log, p, j, c);
    WatcherAtRest(n, m, s, p);
    forall q | 0 <= q < n && q != p ensures Shows(c.tasks, q, Entry(s.log, j, q)) {
      CaughtUpProxies(n, m, s, p, j, q);
      NothingMore(s.log, s.vcps[p].done, j, q);
    }
  }

  lemma OwnEndpointPublished(n: nat, log: seq<Event>, p: nat, j: nat, c: Cell)
    requires PodsInv(n, log, p, j, c) && TaskDone(n, log, p, j, c)
    ensures Published(log, j, p) != ""
  {
    if Entry(log, j, p).value.state == Preparing {
      assert p in Endpoints(TasksForJob(n, c.tasks, {}));
    }
  }

  /** Nobody waits for endpoints: all are published, and everybody knows them. */
  lemma NobodyWaits(n: nat, log: seq<Event>, p: nat, j: nat, c: Cell)
    requires p < n && TaskDone(n, log, p, j, c) && TableShows(n, log, j, c.tasks)
    requires forall q :: 0 <= q < n ==> Published(log, j, q) != ""
    ensures Terminal(Entry(log, j, p).value.state)
  {
    forall q | 0 <= q < n ensures q in c.tasks && c.tasks[q].endpoint != "" {
      assert Published(log, j, q) != "" && Shows(c.tasks, q, Entry(log, j, q));
    }
    KnownEndpoints(n, c.tasks, {});
    FullSize(n, Endpoints(TasksForJob(n, c.tasks, {})));
    FullSet(n, Endpoints(TasksForJob(n, c.tasks, {})).Keys);
  }

  /** The job state follows from the stored outcomes alone. */
  lemma JobOutcome(n: nat, log: seq<Event>, p: nat, j: nat, c: Cell)
    requires p < n && Ready(n, log, p, j, c)
    requires forall q :: 0 <= q < n ==> Entry(log, j, q).Some? && Terminal(Entry(log, j, q).value.state)
    ensures if SomeFailed(n, log, j) then c.job.value.state == JobFailed
            else if c.job.value.spec.idIsUuid then c.job.value.state == JobCompleted
            else JobRank(c.job.value.state) < 3
  {
    forall q | 0 <= q < n ensures q in c.tasks && Some(c.tasks[q]) == Entry(log, j, q) {
      assert Shows(c.tasks, q, Entry(log, j, q));
    }
    FullSize(n, c.tasks);
    if SomeFailed(n, log, j) {
      var q :| 0 <= q < n && Entry(log, j, q).Some? && Entry(log, j, q).value.state == Failed;
      assert c.tasks[q].state == Failed;
      assert TasksSay(n, c.tasks, JobFailed);
    } else {
      assert TasksSay(n, c.tasks, JobCompleted);
    }
  }

  ghost predicate AllReady(n: nat, s: State, j: nat) {
    && |s.vcps| == n
    && (forall p :: 0 <= p < n ==> j < |s.vcps[p].cells| && Ready(n, s.log, p, j, s.vcps[p].cells[j]))
  }

  ghost predicate DoneEverywhere(n: nat, s: State, j: nat, st: JobState)
    requires |s.vcps| == n && forall p :: 0 <= p < n ==> j < |s.vcps[p].cells|
  {
    forall p :: 0 <= p < n ==>
      var c := s.vcps[p].cells[j];
      c.job.Some? && c.job.value.state == st && (st == JobCompleted ==> c.activated)
  }

  /** No VCP completes, fails or activates the job. */
  ghost predicate OpenEverywhere(n: nat, s: State, j: nat)
    requires |s.vcps| == n && forall p :: 0 <= p < n ==> j < |s.vcps[p].cells|
  {
    forall p :: 0 <= p < n ==>
      var c := s.vcps[p].cells[j]; c.job.Some? && JobRank(c.job.value.state) < 3 && !c.activated
  }

  /** How a job that player 0 has can end: Failed on all VCPs if an entry failed, else Completed on all VCPs if its id
      identifies a chunk; without such an id it stays open although all entries are Completed. */
  ghost predicate Done(n: nat, s: State, j: nat)
    requires 0 < n == |s.vcps| && forall p :: 0 <= p < n ==> j < |s.vcps[p].cells|
  {
    && s.vcps[0].cells[j].job.Some?
    && if SomeFailed(n, s.log, j) then DoneEverywhere(n, s, j, JobFailed)
       else
         && AllCompleted(n, s.log, j)
         && if s.vcps[0].cells[j].job.value.spec.idIsUuid then DoneEverywhere(n, s, j, JobCompleted)
            else OpenEverywhere(n, s, j)
  }

  lemma ReadyMeansDone(n: nat, s: State, j: nat)
    requires 0 < n && AllReady(n, s, j)
    ensures Done(n, s, j)
  {
    forall p | 0 <= p < n ensures Entry(s.log, j, p).Some? && Terminal(Entry(s.log, j, p).value.state) {
      assert Ready(n, s.log, p, j, s.vcps[p].cells[j]);
      forall q | 0 <= q < n ensures Published(s.log, j, q) != "" {
        assert Ready(n, s.log, q, j, s.vcps[q].cells[j]);
      }
      NobodyWaits(n, s.log, p, j, s.vcps[p].cells[j]);
    }
    assert Ready(n, s.log, 0, j, s.vcps[0].cells[j]);
    forall p | 0 <= p < n
      ensures var c := s.vcps[p].cells[j];
              && c.job.value.spec == s.vcps[0].cells[j].job.value.spec
              && if SomeFailed(n, s.log, j) then c.job.value.state == JobFailed
                 else if c.job.value.spec.idIsUuid then c.job.value.state == JobCompleted
                 else JobRank(c.job.value.state) < 3
    {
      JobOutcome(n, s.log, p, j, s.vcps[p].cells[j]);
    }
  }

  lemma RestIsReady(n: nat, m: nat, s: State, j: nat)
    requires AtRest(n, m, s) && 0 < n && j < m && s.vcps[0].cells[j].job.Some?
    requires forall p :: 0 <= p < n ==> Served(s.vcps[p].cells[j].owned)
    ensures AllReady(n, s, j)
  {
    JobAtRest(n, m, s, 0, j);
    forall p | 0 <= p < n ensures Ready(n, s.log, p, j, s.vcps[p].cells[j]) {
      CellAtRest(n, m, s, p, j);
    }
  }

  /** Quietness survives steps: what they lead to is the same world. */
  lemma QuietAfter(n: nat, m: nat, s: State, more: seq<Action>)
    requires Shape(n, m, s) && Quiet(n, m, s) && OperatorTicks(more)
    ensures SameWorld(s, After(n, m, s, more)) && Quiet(n, m, After(n, m, s, more))
  {
    var t := After(n, m, s, more);
    forall acts | OperatorTicks(acts) ensures SameWorld(t, After(n, m, t, acts)) {
      AfterConcat(n, m, s, more, acts);
      assert OperatorTicks(more + acts);
      SameWorldTransitive(s, t, After(n, m, s, more + acts));
    }
  }

  lemma SameWorldTransitive(s: State, t: State, u: State)
    requires SameWorld(s, t) && SameWorld(s, u)
    ensures SameWorld(t, u)
  {
  }

  lemma SameWorldDone(n: nat, m: nat, s: State, t: State, j: nat)
    requires 0 < n && Shape(n, m, s) && Shape(n, m, t) && SameWorld(s, t) && j < m
    ensures forall p :: 0 <= p < n ==>
              var c, d := s.vcps[p].cells[j], t.vcps[p].cells[j];
              c.job == d.job && c.owned == d.owned && c.activated == d.activated
    ensures Done(n, t, j) ==> Done(n, s, j)
  {
    forall p | 0 <= p < n
      ensures var c, d := s.vcps[p].cells[j], t.vcps[p].cells[j];
              c.job == d.job && c.owned == d.owned && c.activated == d.activated
    {
      var c, d := s.vcps[p].cells[j], t.vcps[p].cells[j];
      assert Durable(c) == Durable(d);
      assert c.job == Durable(c).job && c.owned == Durable(c).owned && c.activated == Durable(c).activated;
      assert d.job == Durable(d).job && d.owned == Durable(d).owned && d.activated == Durable(d).activated;
    }
  }

  /** Convergence: in a quiet state, once pods have finished and load balancers have addresses, every job known to
      player 0 has ended as Done says. */
  lemma RestMeansDone(n: nat, m: nat, acts: seq<Action>, j: nat)
    requires DropFree(acts) && 0 < n && j < m && Quiet(n, m, Run(n, m, acts))
    requires Run(n, m, acts).vcps[0].cells[j].job.Some?
    requires forall p :: 0 <= p < n ==> Served(Run(n, m, acts).vcps[p].cells[j].owned)
    ensures Done(n, Run(n, m, acts), j)
  {
    var s := Run(n, m, acts);
    var more := Settles(n, m, acts);
    var t := After(n, m, s, more);
    QuietAfter(n, m, s, more);
    SameWorldDone(n, m, s, t, j);
    RestIsReady(n, m, t, j);
    ReadyMeansDone(n, t, j);
  }
}

/** Steady states: every watcher has caught up with whatever it dispatched before, and reconcilers have not been misled
    since. As long as no handler fails, no watch is torn down, no operator crashes and a reconciler can read its own
    task, tables only move forward; API calls may still fail and reconcilers may give up and retry at any point. Runs in
    which none of that happens at all are called clean. */
module RosterClean {
  import opened Wrappers
  import opened EtcdLog
  import opened RosterModel
  import opened RosterSafety
  import opened RosterReplay
  import opened RosterTheorems
  import opened RosterEndpoints

  predicate CleanAction(a: Action) {
    !a.Drop? && !a.Reconnect? && !a.Crash? && (a.TaskTick? ==> a.player !in a.unread)
  }

  predicate CleanRun(acts: seq<Action>) {
    forall a :: a in acts ==> CleanAction(a)
  }

  /** A later version of a task table: nothing disappears, endpoints stay, outcomes are final. */
  ghost predicate Later(t: map<nat, TaskStatus>, u: map<nat, TaskStatus>) {
    forall q :: q in t ==>
      && q in u
      && (t[q].endpoint != "" ==> u[q].endpoint != "")
      && (Terminal(t[q].state) ==> u[q] == t[q])
  }

  ghost predicate AllTerminal(n: nat, t: map<nat, TaskStatus>) {
    forall q :: 0 <= q < n ==> q in t && Terminal(t[q].state)
  }

  function JobRank(st: JobState): nat {
    match st
    case JobUnset => 0
    case JobPending => 1
    case JobRunning => 2
    case JobCompleted => 3
    case JobFailed => 3
  }

  /** What a job state says about the task table. */
  ghost predicate StateFits(n: nat, st: JobState, t: map<nat, TaskStatus>) {
    && (JobRank(st) >= 2 ==> Full(n, t))
    && (JobRank(st) == 3 ==> AllTerminal(n, t))
  }

  ghost predicate JobForward(n: nat, c: Cell) {
    && (c.job.Some? ==> StateFits(n, c.job.value.state, c.tasks))
    && match c.jobPc
       case Activate =>
         c.job.Some? && JobRank(c.job.value.state) < 3 && StateFits(n, JobCompleted, c.tasks)
       case UpdateJob(st) =>
         c.job.Some? && JobRank(c.job.value.state) < JobRank(st) && StateFits(n, st, c.tasks)
       case _ => true
  }

  ghost predicate TaskForward(n: nat, log: seq<Event>, p: nat, j: nat, c: Cell) {
    && (Entry(log, j, p).Some? && Entry(log, j, p).value.state != Preparing ==> AllEndpoints(n, c.tasks))
    && (c.taskPc.WriteStatus? ==>
          if c.taskPc.status.state == Preparing then Published(log, j, p) == "" else AllEndpoints(n, c.tasks))
  }

  ghost predicate SteadyCell(n: nat, log: seq<Event>, p: nat, j: nat, c: Cell) {
    JobForward(n, c) && TaskForward(n, log, p, j, c)
  }

  /** No roster event that the watcher has dispatched before is still to be replayed. */
  predicate CaughtUp(log: seq<Event>, p: nat, v: Vcp) {
    forall i :: At(log, p, v) <= i < v.done && i < |log| ==> !IsRosterEvent(log[i])
  }

  ghost predicate Steady(n: nat, m: nat, s: State) {
    && Tables(n, m, s)
    && (forall p :: 0 <= p < n ==> CaughtUp(s.log, p, s.vcps[p]))
    && (forall p, j :: 0 <= p < n && 0 <= j < m ==> SteadyCell(n, s.log, p, j, s.vcps[p].cells[j]))
  }

  lemma {:induction false} SilentSlice(log: seq<Event>, from: nat, to: nat, j: nat, q: nat)
    requires from <= to <= |log| && forall i :: from <= i < to ==> !IsRosterEvent(log[i])
    ensures Between(log, from, to, j, q).None?
  {
    if from < to {
      SilentSlice(log, from, to - 1, j, q);
      assert log[from..to][..to - 1 - from] == log[from..to - 1];
    }
  }

  /** The proxies of a watcher that has caught up are the fold of the events handled so far. */
  lemma CaughtUpProxies(n: nat, m: nat, s: State, p: nat, j: nat, q: nat)
    requires Tables(n, m, s) && p < n && CaughtUp(s.log, p, s.vcps[p]) && j < m && q < n && q != p
    ensures s.vcps[p].done <= |s.log|
    ensures Shows(s.vcps[p].cells[j].tasks, q, Entry(s.log[..s.vcps[p].done], j, q))
  {
    var v := s.vcps[p];
    assert WatchInv(s.log, p, v) && TableInv(n, m, s.log, p, v);
    var base, at := Base(s.log, p, v), At(s.log, p, v);
    assert ProxyInv(s.log, base, at, v.done, j, q, v.cells[j].tasks);
    SilentSlice(s.log, at, v.done, j, q);
    BetweenSplit(n, s.log, base, at, v.done, j, q);
    BetweenSplit(n, s.log, 0, base, v.done, j, q);
    assert s.log[0..v.done] == s.log[..v.done];
  }

  // Preservation.

  lemma LaterKeeps(n: nat, log: seq<Event>, p: nat, j: nat, c: Cell, t: map<nat, TaskStatus>)
    requires SteadyCell(n, log, p, j, c) && Later(c.tasks, t)
    ensures SteadyCell(n, log, p, j, c.(tasks := t))
  {
  }

  /** The aggregate of a full history never moves a job back. */
  lemma AggregateForward(n: nat, log: seq<Event>, p: nat, j: nat, c: Cell, current: JobState)
    requires 0 < n && ValidLog(n, log) && TasksInv(n, log, p, j, c) && StateFits(n, current, c.tasks)
    requires current == JobCompleted ==> AllCompleted(n, log, j)
    requires current == JobFailed ==> SomeFailed(n, log, j)
    ensures var st := Aggregate(n, c.tasks, current);
            st.Some? ==>
              StateFits(n, st.value, c.tasks) && (st.value == current || JobRank(current) < JobRank(st.value))
  {
    AggregateSound(n, log, p, j, c, current);
    var st := Aggregate(n, c.tasks, current);
    if |c.tasks| >= n {
      FullTable(n, c.tasks);
    } else if JobRank(current) >= 2 {
      FullSize(n, c.tasks);
    }
    assert AllCompleted(n, log, j) ==> !SomeFailed(n, log, j);
  }

  lemma JobTickForward(n: nat, log: seq<Event>, p: nat, j: nat, c: Cell)
    requires 0 < n && p < n && ValidLog(n, log) && CellInv(n, log, p, j, c) && SteadyCell(n, log, p, j, c)
    ensures SteadyCell(n, log, p, j, JobStep(n, log, p, j, c).cell)
  {
    JobTickTasks(n, log, p, j, c);
    if c.jobPc.ListTasks? {
      AggregateForward(n, log, p, j, c, c.jobPc.job.state);
    }
    JobPcForward(n, log, p, j, c);
    TaskForwardFrame(n, log, p, j, c, JobStep(n, log, p, j, c).cell);
  }

  lemma JobPcForward(n: nat, log: seq<Event>, p: nat, j: nat, c: Cell)
    requires JobPcInv(n, log, p, j, c) && JobForward(n, c)
    requires Later(c.tasks, JobStep(n, log, p, j, c).cell.tasks)
    requires c.jobPc.ListTasks? ==>
               var current := c.jobPc.job.state;
               var st := Aggregate(n, c.tasks, current);
               st.Some? ==>
                 StateFits(n, st.value, c.tasks) && (st.value == current || JobRank(current) < JobRank(st.value))
    requires c.jobPc.ListTasks? && Aggregate(n, c.tasks, c.jobPc.job.state) == Some(JobCompleted) ==>
               c.jobPc.job.state != JobCompleted
    ensures JobForward(n, JobStep(n, log, p, j, c).cell)
  {
  }

  lemma TaskForwardFrame(n: nat, log: seq<Event>, p: nat, j: nat, c: Cell, d: Cell)
    requires TaskForward(n, log, p, j, c) && Later(c.tasks, d.tasks) && d.owned == c.owned && d.taskPc == c.taskPc
    ensures TaskForward(n, log, p, j, d)
  {
  }

  lemma JobTickTasks(n: nat, log: seq<Event>, p: nat, j: nat, c: Cell)
    ensures var d := JobStep(n, log, p, j, c).cell;
            Later(c.tasks, d.tasks) && d.owned == c.owned && d.taskPc == c.taskPc
  {
  }

  lemma TaskTickForward(n: nat, log: seq<Event>, p: nat, j: nat, c: Cell, u: set<nat>)
    requires 0 < n && p < n && p !in u && ValidLog(n, log) && CellInv(n, log, p, j, c) && SteadyCell(n, log, p, j, c)
    ensures SteadyCell(n, log, p, j, TaskStep(n, log, p, j, c, u).cell)
    ensures Later(c.tasks, TaskStep(n, log, p, j, c, u).cell.tasks)
  {
    var d := TaskStep(n, log, p, j, c, u).cell;
    TaskStepChange(n, log, p, j, c, u);
    if c.taskPc.RefreshTask? && p in c.tasks && c.tasks[p] != BLANK {
      HeldIsOvertaken(n, log, j, p, c.tasks[p]);
    }
    assert Later(c.tasks, d.tasks);
    LaterKeeps(n, log, p, j, c, d.tasks);
    TaskPcForward(n, log, p, j, c, u);
  }

  lemma KnownEndpoints(n: nat, t: map<nat, TaskStatus>, u: set<nat>)
    ensures |Endpoints(TasksForJob(n, t, u))| == n ==> AllEndpoints(n, t)
    ensures AllEndpoints(n, t) ==> forall q :: 0 <= q < n ==> q in Endpoints(TasksForJob(n, t, {}))
  {
    if |Endpoints(TasksForJob(n, t, u))| == n {
      FullTable(n, Endpoints(TasksForJob(n, t, u)));
      forall q | 0 <= q < n ensures q in t && t[q].endpoint != "" {
        assert q in Endpoints(TasksForJob(n, t, u));
      }
    }
  }

  lemma TaskPcForward(n: nat, log: seq<Event>, p: nat, j: nat, c: Cell, u: set<nat>)
    requires p < n && p !in u && TaskPcInv(n, log, p, j, c) && TaskForward(n, log, p, j, c)
    requires TaskForward(n, log, p, j, c.(tasks := TaskStep(n, log, p, j, c, u).cell.tasks))
    ensures TaskForward(n, log, p, j, TaskStep(n, log, p, j, c, u).cell)
  {
    var d := TaskStep(n, log, p, j, c, u).cell;
    KnownEndpoints(n, c.tasks, u);
    if d.taskPc.WriteStatus? && d.taskPc.status.state != Preparing {
      assert AllEndpoints(n, c.tasks);
    } else if c.taskPc.Collect? && d.taskPc.WriteStatus? {
      assert p in TasksForJob(n, c.tasks, u);
    }
  }

  lemma SteadyFrame(n: nat, log: seq<Event>, p: nat, j: nat, c: Cell, e: Event)
    requires SteadyCell(n, log, p, j, c)
    requires e.EntryPut? && e.job == j && e.player == p ==>
               !c.taskPc.WriteStatus? && (e.status.state != Preparing ==> AllEndpoints(n, c.tasks))
    requires !e.EntryDelete?
    ensures SteadyCell(n, log + [e], p, j, c)
  {
    Append(log, e);
  }

  lemma EnvironmentClean(n: nat, log: seq<Event>, p: nat, j: nat, c: Cell, a: Action)
    requires SteadyCell(n, log, p, j, c) && IsCellAction(a) && !a.JobTick? && !a.TaskTick?
    ensures SteadyCell(n, log, p, j, CellStep(n, log, p, j, c, a).cell)
  {
  }

  lemma TickClean(n: nat, log: seq<Event>, p: nat, j: nat, c: Cell, a: Action)
    requires 0 < n && p < n && ValidLog(n, log) && CellInv(n, log, p, j, c) && SteadyCell(n, log, p, j, c)
    requires a.JobTick? || (a.TaskTick? && p !in a.unread)
    ensures SteadyCell(n, log, p, j, CellStep(n, log, p, j, c, a).cell)
  {
    if a.JobTick? {
      JobTickForward(n, log, p, j, c);
    } else {
      TaskTickForward(n, log, p, j, c, a.unread);
    }
  }

  /** An entry leaves Preparing only when all endpoints are known. */
  lemma PutClean(n: nat, log: seq<Event>, p: nat, j: nat, c: Cell, a: Action)
    requires SteadyCell(n, log, p, j, c)
    ensures var eff := CellStep(n, log, p, j, c, a);
            forall e :: e in eff.puts && e.EntryPut? ==>
              !eff.cell.taskPc.WriteStatus? && (e.status.state != Preparing ==> AllEndpoints(n, eff.cell.tasks))
  {
  }

  lemma CellClean(n: nat, log: seq<Event>, p: nat, j: nat, c: Cell, a: Action)
    requires 0 < n && p < n && ValidLog(n, log) && CellInv(n, log, p, j, c) && SteadyCell(n, log, p, j, c)
    requires IsCellAction(a) && (a.TaskTick? ==> p !in a.unread)
    ensures var eff := CellStep(n, log, p, j, c, a); SteadyCell(n, log + eff.puts, p, j, eff.cell)
  {
    var eff := CellStep(n, log, p, j, c, a);
    if a.JobTick? || a.TaskTick? {
      TickClean(n, log, p, j, c, a);
    } else {
      EnvironmentClean(n, log, p, j, c, a);
    }
    CellStepPuts(n, log, p, j, c, a);
    if eff.puts == [] {
      assert log + eff.puts == log;
    } else {
      PutClean(n, log, p, j, c, a);
      SteadyFrame(n, log, p, j, eff.cell, eff.puts[0]);
    }
  }

  /** A proxy never moves back: the event being handled is the one after what the proxy shows. */
  lemma ProxyForward(n: nat, m: nat, s: State, p: nat)
    requires Steady(n, m, s) && p < n && s.vcps[p].watcher.Handling? && s.vcps[p].watcher.at < s.vcps[p].watcher.upto
    requires s.log[s.vcps[p].watcher.at].EntryPut?
    requires var e := s.log[s.vcps[p].watcher.at]; e.player != p && e.job < m
    ensures var e := s.log[s.vcps[p].watcher.at]; var t := s.vcps[p].cells[e.job].tasks;
            && Later(t, t[e.player := e.status]) && (s.vcps[p].watcher.created ==> e.status == FIRST)
            && (e.player !in t ==> Later(t, t[e.player := BLANK]))
  {
    var v := s.vcps[p];
    var e := s.log[v.watcher.at];
    assert TableInv(n, m, s.log, p, v) && WatchInv(s.log, p, v) && CaughtUp(s.log, p, v);
    assert v.watcher.at == v.done;
    ValidPrefix(n, s.log, v.watcher.at);
    CaughtUpProxies(n, m, s, p, e.job, e.player);
  }

  lemma DispatchClean(n: nat, m: nat, s: State, p: nat)
    requires Steady(n, m, s) && p < n && s.vcps[p].watcher.Handling? && s.vcps[p].watcher.at < s.vcps[p].watcher.upto
    ensures var w := WatchStep(s.log, p, s.vcps[p]).vcp;
            |w.cells| == m && forall j :: 0 <= j < m ==> SteadyCell(n, s.log, p, j, w.cells[j])
  {
    var v := s.vcps[p];
    assert WatchInv(s.log, p, v);
    var e := s.log[v.watcher.at];
    NoDeletes(n, s.log);
    assert e in s.log;
    if IsRosterEvent(e) && e.job < m {
      var c := v.cells[e.job];
      assert SteadyCell(n, s.log, p, e.job, c);
      if e.EntryPut? && e.player != p {
        ProxyForward(n, m, s, p);
        LaterKeeps(n, s.log, p, e.job, c, c.tasks[e.player := e.status]);
        if e.player !in c.tasks {
          LaterKeeps(n, s.log, p, e.job, c, c.tasks[e.player := BLANK]);
        }
      }
    }
  }

  lemma CaughtUpStays(log: seq<Event>, p: nat, v: Vcp, a: Action)
    requires WatchInv(log, p, v) && CaughtUp(log, p, v) && !IsCellAction(a) && CleanAction(a)
    ensures var eff := OperatorStep(log, p, v, a); CaughtUp(log + eff.puts, p, eff.vcp)
  {
    assert log + [] == log;
  }

  lemma CaughtUpFrame(log: seq<Event>, puts: seq<Event>, p: nat, v: Vcp)
    requires WatchInv(log, p, v) && CaughtUp(log, p, v) && |puts| <= 1
    requires forall e :: e in puts && e.HeadPut? ==> e.player != p
    ensures CaughtUp(log + puts, p, v)
  {
    if puts == [] {
      assert log + puts == log;
    } else {
      assert puts == [puts[0]] && puts[0] in puts;
      Append(log, puts[0]);
    }
  }

  lemma AllCaughtUp(n: nat, m: nat, s: State, a: Action)
    requires Steady(n, m, s) && CleanAction(a) && PlayerOf(a) < n && (IsCellAction(a) ==> a.job < m)
    ensures var t := Next(n, m, s, a); forall r :: 0 <= r < n ==> CaughtUp(t.log, r, t.vcps[r])
  {
    var p := PlayerOf(a);
    var t := Next(n, m, s, a);
    var puts;
    if IsCellAction(a) {
      assert CellInv(n, s.log, p, a.job, s.vcps[p].cells[a.job]);
      CellStepPuts(n, s.log, p, a.job, s.vcps[p].cells[a.job], a);
      puts := CellStep(n, s.log, p, a.job, s.vcps[p].cells[a.job], a).puts;
      CaughtUpFrame(s.log, puts, p, s.vcps[p]);
      SameWatcher(t.log, p, s.vcps[p], t.vcps[p]);
    } else {
      OperatorStepKeeps(n, m, s.log, p, s.vcps[p], a);
      puts := OperatorStep(s.log, p, s.vcps[p], a).puts;
      CaughtUpStays(s.log, p, s.vcps[p], a);
    }
    forall r | 0 <= r < n && r != p ensures CaughtUp(t.log, r, t.vcps[r]) {
      assert WatchInv(s.log, r, s.vcps[r]);
      CaughtUpFrame(s.log, puts, r, s.vcps[r]);
    }
  }

  lemma SameWatcher(log: seq<Event>, p: nat, v: Vcp, w: Vcp)
    requires CaughtUp(log, p, v) && w.watcher == v.watcher && w.done == v.done
    ensures CaughtUp(log, p, w)
  {
  }

  lemma OperatorClean(n: nat, m: nat, s: State, a: Action)
    requires Steady(n, m, s) && !IsCellAction(a) && CleanAction(a) && PlayerOf(a) < n
    ensures Steady(n, m, Next(n, m, s, a))
  {
    var p := PlayerOf(a);
    var v := s.vcps[p];
    var eff := OperatorStep(s.log, p, v, a);
    var t := Next(n, m, s, a);
    OperatorTables(n, m, s, a);
    AllCaughtUp(n, m, s, a);
    assert WatchInv(s.log, p, v) && CellsInv(n, m, s.log, p, v);
    OperatorStepKeeps(n, m, s.log, p, v, a);
    if a.WatchTick? && v.watcher.Handling? && v.watcher.at < v.watcher.upto {
      DispatchClean(n, m, s, p);
    } else {
      OtherOperatorSteps(s.log, p, v, a);
    }
    CleanCellsFrame(n, m, s, t, eff.puts);
  }

  lemma CleanCellsFrame(n: nat, m: nat, s: State, t: State, puts: seq<Event>)
    requires Inv(n, m, s) && Shape(n, m, t) && t.log == s.log + puts
    requires puts == [] || (|puts| == 1 && puts[0].HeadPut?)
    requires forall r, k :: 0 <= r < n && 0 <= k < m ==> SteadyCell(n, s.log, r, k, t.vcps[r].cells[k])
    ensures forall r, k :: 0 <= r < n && 0 <= k < m ==> SteadyCell(n, t.log, r, k, t.vcps[r].cells[k])
  {
    if puts == [] {
      assert t.log == s.log;
    } else {
      assert puts == [puts[0]];
      forall r, k | 0 <= r < n && 0 <= k < m ensures SteadyCell(n, t.log, r, k, t.vcps[r].cells[k]) {
        SteadyFrame(n, s.log, r, k, t.vcps[r].cells[k], puts[0]);
      }
    }
  }

  lemma OtherCellsSteady(n: nat, m: nat, s: State, p: nat, j: nat, puts: seq<Event>, r: nat, k: nat)
    requires Steady(n, m, s) && r < n && k < m && (r != p || k != j)
    requires puts == [] || (|puts| == 1 && OwnPut(n, s.log, p, j, puts[0]))
    ensures SteadyCell(n, s.log + puts, r, k, s.vcps[r].cells[k])
  {
    assert SteadyCell(n, s.log, r, k, s.vcps[r].cells[k]);
    if puts == [] {
      assert s.log + puts == s.log;
    } else {
      assert puts == [puts[0]];
      SteadyFrame(n, s.log, r, k, s.vcps[r].cells[k], puts[0]);
    }
  }

  lemma CellActionClean(n: nat, m: nat, s: State, a: Action)
    requires Steady(n, m, s) && IsCellAction(a) && CleanAction(a) && PlayerOf(a) < n && a.job < m
    ensures Steady(n, m, Next(n, m, s, a))
  {
    var p, j := PlayerOf(a), a.job;
    var c := s.vcps[p].cells[j];
    var eff := CellStep(n, s.log, p, j, c, a);
    var t := Next(n, m, s, a);
    CellTables(n, m, s, a);
    AllCaughtUp(n, m, s, a);
    assert CellInv(n, s.log, p, j, c) && SteadyCell(n, s.log, p, j, c);
    CellStepPuts(n, s.log, p, j, c, a);
    CellClean(n, s.log, p, j, c, a);
    forall r, k | 0 <= r < n && 0 <= k < m && (r != p || k != j)
      ensures SteadyCell(n, t.log, r, k, t.vcps[r].cells[k])
    {
      OtherCellsSteady(n, m, s, p, j, eff.puts, r, k);
    }
  }

  lemma {:induction false} SteadyReachable(n: nat, m: nat, acts: seq<Action>)
    requires CleanRun(acts)
    ensures Steady(n, m, Run(n, m, acts))
  {
    if acts == [] {
      InitInv(n, m);
    } else {
      var before, a := acts[..|acts| - 1], acts[|acts| - 1];
      SteadyReachable(n, m, before);
      CleanStep(n, m, Run(n, m, before), a);
    }
  }

  lemma CleanStep(n: nat, m: nat, s: State, a: Action)
    requires Steady(n, m, s) && CleanAction(a)
    ensures Steady(n, m, Next(n, m, s, a))
  {
    if PlayerOf(a) < n && (IsCellAction(a) ==> a.job < m) {
      if IsCellAction(a) {
        CellActionClean(n, m, s, a);
      } else {
        OperatorClean(n, m, s, a);
      }
    }
  }

  // Clean runs, two states apart: tables and job states only move forward.

  ghost predicate Forward(c: Cell, d: Cell) {
    && Later(c.tasks, d.tasks)
    && (c.job.Some? ==> d.job.Some? && JobRank(c.job.value.state) <= JobRank(d.job.value.state))
  }

  lemma ForwardTransitive(c: Cell, d: Cell, e: Cell)
    requires Forward(c, d) && Forward(d, e)
    ensures Forward(c, e)
  {
  }

  lemma CellForward(n: nat, log: seq<Event>, p: nat, j: nat, c: Cell, a: Action)
    requires 0 < n && p < n && ValidLog(n, log) && CellInv(n, log, p, j, c) && SteadyCell(n, log, p, j, c)
    requires IsCellAction(a) && (a.TaskTick? ==> p !in a.unread)
    ensures Forward(c, CellStep(n, log, p, j, c, a).cell)
  {
    if a.JobTick? {
      JobTickTasks(n, log, p, j, c);
    } else if a.TaskTick? {
      TaskTickForward(n, log, p, j, c, a.unread);
      TaskStepChange(n, log, p, j, c, a.unread);
    }
  }

  lemma WatchForward(n: nat, m: nat, s: State, p: nat, j: nat, a: Action)
    requires Steady(n, m, s) && p < n && j < m && !IsCellAction(a) && CleanAction(a)
    ensures var w := OperatorStep(s.log, p, s.vcps[p], a).vcp;
            |w.cells| == m && Forward(s.vcps[p].cells[j], w.cells[j])
  {
    var v := s.vcps[p];
    assert WatchInv(s.log, p, v);
    if a.WatchTick? && v.watcher.Handling? && v.watcher.at < v.watcher.upto {
      var e := s.log[v.watcher.at];
      NoDeletes(n, s.log);
      assert e in s.log;
      if e.EntryPut? && e.player != p && e.job < m {
        ProxyForward(n, m, s, p);
      }
    }
  }

  lemma StepForward(n: nat, m: nat, s: State, a: Action, p: nat, j: nat)
    requires Steady(n, m, s) && CleanAction(a) && p < n && j < m
    ensures Forward(CellOf(s, p, j), CellOf(Next(n, m, s, a), p, j))
  {
    var c := s.vcps[p].cells[j];
    if PlayerOf(a) != p {
      assert Next(n, m, s, a).vcps[p] == s.vcps[p];
    } else if !IsCellAction(a) {
      WatchForward(n, m, s, p, j, a);
    } else if a.job == j {
      assert CellInv(n, s.log, p, j, c) && SteadyCell(n, s.log, p, j, c);
      CellForward(n, s.log, p, j, c, a);
    } else {
      assert Next(n, m, s, a).vcps[p].cells[j] == c;
    }
  }

  /** Between any two states of a clean run no task disappears, no endpoint is lost, no outcome changes, and no job goes
      back: not from Running to Pending, nor from Completed or Failed to anything else. */
  lemma {:induction false} TablesMoveForward(n: nat, m: nat, acts: seq<Action>, more: seq<Action>, p: nat, j: nat)
    requires CleanRun(acts + more) && p < n && j < m
    ensures Forward(CellOf(Run(n, m, acts), p, j), CellOf(Run(n, m, acts + more), p, j))
    decreases |more|
  {
    if more == [] {
      assert acts + more == acts;
    } else {
      var init, a := more[..|more| - 1], more[|more| - 1];
      assert acts + more == (acts + init) + [a];
      assert (acts + more)[..|acts + init|] == acts + init;
      forall b | b in acts + init ensures CleanAction(b) {
        assert b in (acts + init) + [a];
      }
      assert a in acts + more;
      TablesMoveForward(n, m, acts, init, p, j);
      SteadyReachable(n, m, acts + init);
      StepForward(n, m, Run(n, m, acts + init), a, p, j);
      ForwardTransitive(CellOf(Run(n, m, acts), p, j), CellOf(Run(n, m, acts + init), p, j),
                        CellOf(Run(n, m, acts + more), p, j));
    }
  }

  // What generator pods are given in clean runs.

  ghost predicate KnowsAll(n: nat, c: Cell) {
    && (c.owned.generator.Some? ==> forall q :: 0 <= q < n ==> q in c.owned.generator.value.endpoints)
    && (c.taskPc.CreateGenerator? ==> forall q :: 0 <= q < n ==> q in c.taskPc.endpoints)
  }

  lemma CellKnowsAll(n: nat, log: seq<Event>, p: nat, j: nat, c: Cell, a: Action)
    requires IsCellAction(a) && KnowsAll(n, c) && TaskPcInv(n, log, p, j, c) && TaskForward(n, log, p, j, c)
    ensures KnowsAll(n, CellStep(n, log, p, j, c, a).cell)
  {
    if a.TaskTick? {
      if c.taskPc.Act? {
        ActKnowsAll(n, log, p, j, c, c.taskPc.status, a.unread);
      } else {
        TickKnowsAll(n, log, p, j, c, a.unread);
      }
    } else if a.JobTick? {
      JobTickTasks(n, log, p, j, c);
    }
  }

  lemma TickKnowsAll(n: nat, log: seq<Event>, p: nat, j: nat, c: Cell, u: set<nat>)
    requires KnowsAll(n, c) && !c.taskPc.Act?
    ensures KnowsAll(n, TaskStep(n, log, p, j, c, u).cell)
  {
  }

  lemma ActKnowsAll(n: nat, log: seq<Event>, p: nat, j: nat, c: Cell, st: TaskStatus, u: set<nat>)
    requires KnowsAll(n, c) && c.taskPc == Act(st) && TaskPcInv(n, log, p, j, c) && TaskForward(n, log, p, j, c)
    ensures KnowsAll(n, ActStep(n, p, c, st, u))
  {
    if st.state == Launching {
      AllRead(n, c.tasks, u);
    }
  }

  lemma AllRead(n: nat, t: map<nat, TaskStatus>, u: set<nat>)
    requires AllEndpoints(n, t)
    ensures |TasksForJob(n, t, u)| == n ==> forall q :: 0 <= q < n ==> q in Endpoints(TasksForJob(n, t, u))
  {
    if |TasksForJob(n, t, u)| == n {
      FullTable(n, TasksForJob(n, t, u));
      forall q | 0 <= q < n ensures q in Endpoints(TasksForJob(n, t, u)) {
        assert q in TasksForJob(n, t, u);
      }
    }
  }

  lemma OperatorKnowsAll(n: nat, log: seq<Event>, p: nat, v: Vcp, a: Action, j: nat)
    requires !IsCellAction(a) && j < |v.cells| && KnowsAll(n, v.cells[j])
    ensures var w := OperatorStep(log, p, v, a).vcp; j < |w.cells| && KnowsAll(n, w.cells[j])
  {
  }

  lemma {:induction false} PodsKnowAll(n: nat, m: nat, acts: seq<Action>, p: nat, j: nat)
    requires CleanRun(acts) && p < n && j < m
    ensures KnowsAll(n, CellOf(Run(n, m, acts), p, j))
  {
    if acts != [] {
      var before, a := acts[..|acts| - 1], acts[|acts| - 1];
      var s := Run(n, m, before);
      PodsKnowAll(n, m, before, p, j);
      SteadyReachable(n, m, before);
      if PlayerOf(a) == p && IsCellAction(a) && a.job == j {
        assert CellInv(n, s.log, p, j, s.vcps[p].cells[j]) && SteadyCell(n, s.log, p, j, s.vcps[p].cells[j]);
        CellKnowsAll(n, s.log, p, j, s.vcps[p].cells[j], a);
      } else if PlayerOf(a) == p && !IsCellAction(a) {
        OperatorKnowsAll(n, s.log, p, s.vcps[p], a, j);
      }
    }
  }

  lemma NeverRepublished(n: nat, m: nat, acts: seq<Action>, j: nat, q: nat)
    requires CleanRun(acts) && q < n && j < m
    ensures !Republished(n, m, acts, j, q)
  {
    forall i: nat, k: nat ensures !Republishes(n, m, acts, j, q, i, k) {
      if i < k < |acts| {
        assert acts[..k][i] == acts[i] && acts[i] in acts;
      }
    }
  }

  /** In a clean run every generator pod is given the endpoints of all N players, the only ones they publish. */
  lemma GeneratorsKnowAllEndpoints(n: nat, m: nat, acts: seq<Action>, p: nat, j: nat, q: nat)
    requires CleanRun(acts) && p < n && j < m && q < n
    ensures var s := Run(n, m, acts); var pod := CellOf(s, p, j).owned.generator;
            && !TwoEndpoints(History(s.log, j, q))
            && (pod.Some? ==> q in pod.value.endpoints && pod.value.endpoints[q] == Published(s.log, j, q) != "")
  {
    PodsKnowAll(n, m, acts, p, j);
    NeverRepublished(n, m, acts, j, q);
    EndpointAgreement(n, m, acts, p, p, j, q);
  }

  /** In a clean run the proxy table is at any time the fold of the log up to the events handled. */
  lemma ProxiesRefineLog(n: nat, m: nat, acts: seq<Action>, p: nat, j: nat, q: nat)
    requires CleanRun(acts) && p < n && j < m && q < n && q != p
    ensures var s := Run(n, m, acts); var v := s.vcps[p];
            v.done <= |s.log| && Shows(v.cells[j].tasks, q, Entry(s.log[..v.done], j, q))
  {
    SteadyReachable(n, m, acts);
    CaughtUpProxies(n, m, Run(n, m, acts), p, j, q);
  }
}

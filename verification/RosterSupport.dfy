/** What the job states and roster entries of a VCP claim is supported by the events that its watcher has dispatched,
    in every run: under any crash, replay or lost event. Proxies may move back for a while, but claims do not outrun
    the log. */
module RosterSupport {
  import opened Wrappers
  import opened EtcdLog
  import opened RosterModel
  import opened RosterSafety
  import opened RosterReplay
  import opened RosterClean
  import opened RosterConvergence

  // What claims rest on. seen is the part of the log that the watcher has dispatched.

  ghost predicate Seen(seen: seq<Event>, p: nat, j: nat, t: map<nat, TaskStatus>) {
    forall q :: q in t && q != p ==> t[q] == BLANK || EntryPut(j, q, t[q]) in seen
  }

  /** The others have ended by what was dispatched, and so has the local task. */
  ghost predicate Ended(n: nat, seen: seq<Event>, p: nat, j: nat, t: map<nat, TaskStatus>) {
    && p in t && Terminal(t[p].state)
    && forall q :: 0 <= q < n && q != p ==> Entry(seen, j, q).Some? && Terminal(Entry(seen, j, q).value.state)
  }

  /** The others have published endpoints by what was dispatched, and so has the local task. */
  ghost predicate Known(n: nat, seen: seq<Event>, p: nat, j: nat, t: map<nat, TaskStatus>) {
    && p in t && t[p].endpoint != ""
    && forall q :: 0 <= q < n && q != p ==> Published(seen, j, q) != ""
  }

  ghost predicate Claims(n: nat, seen: seq<Event>, p: nat, j: nat, t: map<nat, TaskStatus>, st: JobState) {
    (JobRank(st) >= 2 ==> Full(n, t)) && (JobRank(st) == 3 ==> Ended(n, seen, p, j, t))
  }

  ghost predicate JobClaims(n: nat, seen: seq<Event>, p: nat, j: nat, c: Cell) {
    && (c.job.Some? ==> Claims(n, seen, p, j, c.tasks, c.job.value.state))
    && (c.jobPc.Activate? ==> Claims(n, seen, p, j, c.tasks, JobCompleted))
    && (c.jobPc.UpdateJob? ==> Claims(n, seen, p, j, c.tasks, c.jobPc.state))
  }

  ghost predicate EntryClaims(n: nat, log: seq<Event>, seen: seq<Event>, p: nat, j: nat, c: Cell) {
    && (Entry(log, j, p).Some? && Entry(log, j, p).value.state != Preparing ==> Known(n, seen, p, j, c.tasks))
    && (c.taskPc.WriteStatus? && c.taskPc.status.state != Preparing ==> Known(n, seen, p, j, c.tasks))
  }

  ghost predicate Supported(n: nat, log: seq<Event>, seen: seq<Event>, p: nat, j: nat, c: Cell) {
    Seen(seen, p, j, c.tasks) && JobClaims(n, seen, p, j, c) && EntryClaims(n, log, seen, p, j, c)
  }

  /** A dispatched terminal status, or endpoint, is what the dispatched events say. */
  lemma SeenIsFinal(n: nat, seen: seq<Event>, p: nat, j: nat, t: map<nat, TaskStatus>, q: nat)
    requires ValidLog(n, seen) && Seen(seen, p, j, t) && q in t && q != p
    ensures Terminal(t[q].state) ==> Entry(seen, j, q) == Some(t[q])
    ensures t[q].endpoint != "" ==> Published(seen, j, q) != ""
  {
    if t[q] != BLANK {
      HeldIsOvertaken(n, seen, j, q, t[q]);
    }
  }

  lemma AggregateClaims(n: nat, log: seq<Event>, seen: seq<Event>, p: nat, j: nat, c: Cell, current: JobState)
    requires 0 < n && p < n && ValidLog(n, seen) && TasksInv(n, log, p, j, c) && Seen(seen, p, j, c.tasks)
    ensures var st := Aggregate(n, c.tasks, current); st.Some? ==> Claims(n, seen, p, j, c.tasks, st.value)
  {
    var st := Aggregate(n, c.tasks, current);
    if |c.tasks| >= n {
      FullTable(n, c.tasks);
      if st.Some? && JobRank(st.value) == 3 {
        forall q | 0 <= q < n && q != p ensures Entry(seen, j, q).Some? && Terminal(Entry(seen, j, q).value.state) {
          SeenIsFinal(n, seen, p, j, c.tasks, q);
        }
      }
    }
  }

  lemma JobTickClaims(n: nat, log: seq<Event>, seen: seq<Event>, p: nat, j: nat, c: Cell)
    requires 0 < n && p < n && ValidLog(n, seen) && TasksInv(n, log, p, j, c) && Seen(seen, p, j, c.tasks)
    requires JobClaims(n, seen, p, j, c)
    ensures JobClaims(n, seen, p, j, JobStep(n, log, p, j, c).cell)
  {
    if c.jobPc.ListTasks? {
      AggregateClaims(n, log, seen, p, j, c, c.jobPc.job.state);
    }
    JobStepTable(n, log, p, j, c);
    JobStepClaims(n, log, seen, p, j, c);
  }

  lemma JobStepTable(n: nat, log: seq<Event>, p: nat, j: nat, c: Cell)
    ensures var d := JobStep(n, log, p, j, c).cell;
            && d.owned == c.owned && d.taskPc == c.taskPc
            && (d.tasks == c.tasks || (p !in c.tasks && d.tasks == c.tasks[p := BLANK]))
  {
  }

  lemma JobStepClaims(n: nat, log: seq<Event>, seen: seq<Event>, p: nat, j: nat, c: Cell)
    requires JobClaims(n, seen, p, j, c)
    requires c.jobPc.ListTasks? ==>
               var st := Aggregate(n, c.tasks, c.jobPc.job.state); st.Some? ==> Claims(n, seen, p, j, c.tasks, st.value)
    ensures JobClaims(n, seen, p, j, JobStep(n, log, p, j, c).cell)
  {
  }

  /** The local task is refreshed with what is stored by now: neither an outcome nor an endpoint is lost. */
  lemma RefreshedTask(n: nat, log: seq<Event>, p: nat, j: nat, c: Cell)
    requires ValidLog(n, log) && TasksInv(n, log, p, j, c) && p in c.tasks && Entry(log, j, p).Some?
    ensures Terminal(c.tasks[p].state) ==> Entry(log, j, p) == Some(c.tasks[p])
    ensures c.tasks[p].endpoint != "" ==> Published(log, j, p) != ""
  {
    if c.tasks[p] != BLANK {
      HeldIsOvertaken(n, log, j, p, c.tasks[p]);
    }
  }

  lemma TaskTickTable(n: nat, log: seq<Event>, seen: seq<Event>, p: nat, j: nat, c: Cell, d: Cell)
    requires ValidLog(n, log) && TasksInv(n, log, p, j, c) && TaskChange(log, p, j, c, d)
    requires Supported(n, log, seen, p, j, c)
    ensures Seen(seen, p, j, d.tasks) && JobClaims(n, seen, p, j, d)
    ensures Known(n, seen, p, j, c.tasks) ==> Known(n, seen, p, j, d.tasks)
  {
    if d.tasks != c.tasks {
      RefreshedTask(n, log, p, j, c);
    }
  }

  /** All N endpoints are known, or no new claim is made. */
  lemma TaskTickClaims(n: nat, log: seq<Event>, seen: seq<Event>, p: nat, j: nat, c: Cell, u: set<nat>)
    requires p < n && ValidLog(n, seen) && TaskPcInv(n, log, p, j, c) && Supported(n, log, seen, p, j, c)
    ensures var d := TaskStep(n, log, p, j, c, u).cell;
            d.taskPc.WriteStatus? && d.taskPc.status.state != Preparing ==> Known(n, seen, p, j, c.tasks)
  {
    if c.taskPc.Collect? && |Endpoints(TasksForJob(n, c.tasks, u))| == n {
      KnownEndpoints(n, c.tasks, u);
      forall q | 0 <= q < n && q != p ensures Published(seen, j, q) != "" {
        SeenIsFinal(n, seen, p, j, c.tasks, q);
      }
    }
  }

  lemma CellActionSupported(n: nat, log: seq<Event>, seen: seq<Event>, p: nat, j: nat, c: Cell, a: Action)
    requires 0 < n && p < n && ValidLog(n, log) && ValidLog(n, seen) && CellInv(n, log, p, j, c) && IsCellAction(a)
    requires Supported(n, log, seen, p, j, c)
    ensures var eff := CellStep(n, log, p, j, c, a); Supported(n, log + eff.puts, seen, p, j, eff.cell)
  {
    var eff := CellStep(n, log, p, j, c, a);
    CellStepPuts(n, log, p, j, c, a);
    if a.JobTick? {
      JobTickClaims(n, log, seen, p, j, c);
      JobStepTable(n, log, p, j, c);
    } else if a.TaskTick? {
      TaskStepChange(n, log, p, j, c, a.unread);
      TaskTickTable(n, log, seen, p, j, c, eff.cell);
      TaskTickClaims(n, log, seen, p, j, c, a.unread);
    }
    PutSupported(n, log, seen, p, j, c, a);
  }

  /** What is put is what the reconciler was about to write. */
  lemma PutSupported(n: nat, log: seq<Event>, seen: seq<Event>, p: nat, j: nat, c: Cell, a: Action)
    requires IsCellAction(a) && |CellStep(n, log, p, j, c, a).puts| <= 1 && EntryClaims(n, log, seen, p, j, c)
    requires forall e :: e in CellStep(n, log, p, j, c, a).puts ==> !e.EntryDelete?
    requires var d := CellStep(n, log, p, j, c, a).cell;
             && (Known(n, seen, p, j, c.tasks) ==> Known(n, seen, p, j, d.tasks))
             && (d.taskPc.WriteStatus? && d.taskPc.status.state != Preparing ==> Known(n, seen, p, j, d.tasks))
    ensures var eff := CellStep(n, log, p, j, c, a); EntryClaims(n, log + eff.puts, seen, p, j, eff.cell)
  {
    var eff := CellStep(n, log, p, j, c, a);
    if eff.puts == [] {
      assert log + eff.puts == log;
    } else {
      assert eff.puts == [eff.puts[0]] && eff.puts[0] in eff.puts;
      Append(log, eff.puts[0]);
    }
  }

  /** Claims survive what others put and what is dispatched. */
  lemma ClaimsFrame(n: nat, log: seq<Event>, e: Event, seen: seq<Event>, p: nat, j: nat, c: Cell)
    requires Supported(n, log, seen, p, j, c) && !e.EntryDelete? && !(e.EntryPut? && e.job == j && e.player == p)
    ensures Supported(n, log + [e], seen, p, j, c)
  {
    Append(log, e);
  }

  lemma PublishedStays(n: nat, seen: seq<Event>, e: Event, j: nat, q: nat)
    requires ValidEvent(n, seen, e) && Published(seen, j, q) != ""
    ensures Published(seen + [e], j, q) != ""
  {
    Append(seen, e);
  }

  lemma ClaimsSeeMore(n: nat, log: seq<Event>, seen: seq<Event>, e: Event, p: nat, j: nat, c: Cell)
    requires Supported(n, log, seen, p, j, c) && ValidLog(n, seen) && ValidEvent(n, seen, e)
    ensures Supported(n, log, seen + [e], p, j, c)
  {
    Append(seen, e);
    if Known(n, seen, p, j, c.tasks) {
      forall q | 0 <= q < n && q != p ensures Published(seen + [e], j, q) != "" {
        PublishedStays(n, seen, e, j, q);
      }
      assert Known(n, seen + [e], p, j, c.tasks);
    }
  }

  /** A proxy is updated with something dispatched, a job created. */
  lemma ProxySupported(n: nat, log: seq<Event>, seen: seq<Event>, p: nat, j: nat, c: Cell, q: nat, st: TaskStatus)
    requires Supported(n, log, seen, p, j, c) && q != p && (st == BLANK || EntryPut(j, q, st) in seen)
    ensures Supported(n, log, seen, p, j, c.(tasks := c.tasks[q := st]))
  {
  }

  // Every action keeps all cells supported.

  ghost predicate VcpSupported(n: nat, m: nat, log: seq<Event>, p: nat, v: Vcp) {
    && v.done <= |log| && |v.cells| == m
    && forall j :: 0 <= j < m ==> Supported(n, log, log[..v.done], p, j, v.cells[j])
  }

  ghost predicate AllSupported(n: nat, m: nat, s: State) {
    |s.vcps| == n && forall p :: 0 <= p < n ==> VcpSupported(n, m, s.log, p, s.vcps[p])
  }

  lemma VcpFrame(n: nat, m: nat, log: seq<Event>, puts: seq<Event>, p: nat, v: Vcp)
    requires VcpSupported(n, m, log, p, v) && |puts| <= 1
    requires forall e :: e in puts ==> !e.EntryDelete? && !(e.EntryPut? && e.player == p)
    ensures VcpSupported(n, m, log + puts, p, v)
  {
    assert (log + puts)[..v.done] == log[..v.done];
    if puts == [] {
      assert log + puts == log;
    } else {
      assert puts == [puts[0]] && puts[0] in puts;
      forall j | 0 <= j < m ensures Supported(n, log + puts, log[..v.done], p, j, v.cells[j]) {
        ClaimsFrame(n, log, puts[0], log[..v.done], p, j, v.cells[j]);
      }
    }
  }

  lemma OwnCellSupported(n: nat, m: nat, log: seq<Event>, p: nat, v: Vcp, j: nat, a: Action)
    requires 0 < n && p < n && j < m && ValidLog(n, log) && VcpSupported(n, m, log, p, v)
    requires CellInv(n, log, p, j, v.cells[j]) && IsCellAction(a)
    ensures var eff := CellStep(n, log, p, j, v.cells[j], a);
            VcpSupported(n, m, log + eff.puts, p, v.(cells := v.cells[j := eff.cell]))
  {
    var seen := log[..v.done];
    var eff := CellStep(n, log, p, j, v.cells[j], a);
    var w := v.(cells := v.cells[j := eff.cell]);
    ValidPrefix(n, log, v.done);
    assert (log + eff.puts)[..v.done] == seen;
    assert Supported(n, log, seen, p, j, v.cells[j]);
    CellActionSupported(n, log, seen, p, j, v.cells[j], a);
    CellStepPuts(n, log, p, j, v.cells[j], a);
    forall k | 0 <= k < m && k != j ensures Supported(n, log + eff.puts, seen, p, k, v.cells[k]) {
      assert Supported(n, log, seen, p, k, v.cells[k]);
      if eff.puts == [] {
        assert log + eff.puts == log;
      } else {
        ClaimsFrame(n, log, eff.puts[0], seen, p, k, v.cells[k]);
      }
    }
  }

  /** The watcher moves past an event. */
  lemma AdvanceSupported(n: nat, m: nat, log: seq<Event>, p: nat, v: Vcp)
    requires ValidLog(n, log) && VcpSupported(n, m, log, p, v)
    requires v.watcher.Handling? && v.watcher.at < |log| && v.watcher.at <= v.done
    ensures VcpSupported(n, m, log, p, Advance(v))
  {
    if v.watcher.at == v.done {
      var seen, e := log[..v.done], log[v.done];
      assert log[..v.done + 1] == seen + [e];
      ValidPrefix(n, log, v.done);
      forall j | 0 <= j < m ensures Supported(n, log, seen + [e], p, j, v.cells[j]) {
        ClaimsSeeMore(n, log, seen, e, p, j, v.cells[j]);
      }
    }
  }

  /** Handling an event writes what the event, dispatched by then, says. */
  lemma HandledSupported(n: nat, log: seq<Event>, seen: seq<Event>, p: nat, c: Cell, e: Event, created: bool)
    requires IsRosterEvent(e) && !e.EntryDelete? && !e.RosterDelete? && Supported(n, log, seen, p, e.job, c)
    requires e in seen && (created ==> e.EntryPut? && e.player != p && EntryPut(e.job, e.player, FIRST) in seen)
    ensures Supported(n, log, seen, p, e.job, Dispatched(p, c, e, created))
  {
    if e.EntryPut? && e.player != p {
      ProxySupported(n, log, seen, p, e.job, c, e.player, e.status);
      ProxySupported(n, log, seen, p, e.job, c, e.player, BLANK);
    }
  }

  lemma DispatchSupported(n: nat, m: nat, log: seq<Event>, p: nat, v: Vcp)
    requires ValidLog(n, log) && VcpSupported(n, m, log, p, v) && WatchInv(log, p, v)
    requires v.watcher.Handling? && v.watcher.at < v.watcher.upto
    ensures VcpSupported(n, m, log, p, WatchStep(log, p, v).vcp)
  {
    var e := log[v.watcher.at];
    var w := WatchStep(log, p, v).vcp;
    NoDeletes(n, log);
    assert e in log;
    AdvanceSupported(n, m, log, p, v);
    if IsRosterEvent(e) && e.job < m {
      var c, seen := v.cells[e.job], log[..Advance(v).done];
      WatchStepShape(log, p, v);
      if w.done == Advance(v).done && w.watcher.at > v.watcher.at {
        assert log[v.watcher.at] == seen[v.watcher.at];
        if v.watcher.created {
          FirstDispatched(n, log, seen, e, v.watcher.at);
        }
        HandledSupported(n, log, seen, p, c, e, v.watcher.created);
      } else {
        ProxySupported(n, log, log[..v.done], p, e.job, c, e.player, BLANK);
      }
    }
  }

  lemma FirstDispatched(n: nat, log: seq<Event>, seen: seq<Event>, e: Event, at: nat)
    requires ValidLog(n, log) && seen <= log && at < |seen| && seen[at] == e && e.EntryPut?
    ensures EntryPut(e.job, e.player, FIRST) in seen
  {
    ValidPrefix(n, log, |seen|);
    assert log[..|seen|] == seen && e in seen;
    HeldIsOvertaken(n, seen, e.job, e.player, e.status);
    FirstWasPut(n, seen, e.job, e.player);
  }

  lemma OperatorSupported(n: nat, m: nat, log: seq<Event>, p: nat, v: Vcp, a: Action)
    requires ValidLog(n, log) && VcpSupported(n, m, log, p, v) && WatchInv(log, p, v) && !IsCellAction(a)
    ensures var eff := OperatorStep(log, p, v, a);
            && |eff.puts| <= 1 && (forall e :: e in eff.puts ==> e.HeadPut?)
            && VcpSupported(n, m, log + eff.puts, p, eff.vcp)
  {
    var eff := OperatorStep(log, p, v, a);
    assert log + [] == log;
    if a.WatchTick? && v.watcher.Handling? && v.watcher.at < v.watcher.upto {
      DispatchSupported(n, m, log, p, v);
      WatchStepShape(log, p, v);
    } else if a.Drop? && v.watcher.Handling? && v.watcher.at < v.watcher.upto {
      AdvanceSupported(n, m, log, p, v);
    } else {
      VcpFrame(n, m, log, eff.puts, p, v);
      assert eff.vcp.done == v.done;
    }
  }

  lemma {:induction false} SupportReachable(n: nat, m: nat, acts: seq<Action>)
    ensures AllSupported(n, m, Run(n, m, acts))
  {
    if acts != [] {
      var before, a := acts[..|acts| - 1], acts[|acts| - 1];
      SupportReachable(n, m, before);
      Reachable(n, m, before);
      StepSupported(n, m, Run(n, m, before), a);
    }
  }

  lemma StepSupported(n: nat, m: nat, s: State, a: Action)
    requires Inv(n, m, s) && AllSupported(n, m, s)
    ensures AllSupported(n, m, Next(n, m, s, a))
  {
    var p := PlayerOf(a);
    var t := Next(n, m, s, a);
    if p < n && (IsCellAction(a) ==> a.job < m) {
      assert VcpSupported(n, m, s.log, p, s.vcps[p]) && WatchInv(s.log, p, s.vcps[p]);
      var puts;
      if IsCellAction(a) {
        assert CellInv(n, s.log, p, a.job, s.vcps[p].cells[a.job]);
        OwnCellSupported(n, m, s.log, p, s.vcps[p], a.job, a);
        CellStepPuts(n, s.log, p, a.job, s.vcps[p].cells[a.job], a);
        puts := CellStep(n, s.log, p, a.job, s.vcps[p].cells[a.job], a).puts;
      } else {
        OperatorSupported(n, m, s.log, p, s.vcps[p], a);
        puts := OperatorStep(s.log, p, s.vcps[p], a).puts;
      }
      forall r | 0 <= r < n && r != p ensures VcpSupported(n, m, t.log, r, t.vcps[r]) {
        VcpFrame(n, m, s.log, puts, r, s.vcps[r]);
      }
    }
  }
}

/** The watcher: delivery and replay. Whatever sequence of watch failures, head-write failures and restarts an
    operator goes through, no roster event is skipped, and once a restarted watcher has caught up with the furthest
    event it ever handled, its job and proxy tables are those of one in-order pass over the log. */
module RosterReplay {
  import opened Wrappers
  import opened EtcdLog
  import opened RosterModel
  import opened RosterSafety

  // Slices of the log.

  function Between(log: seq<Event>, from: nat, to: nat, j: nat, q: nat): Option<TaskStatus>
    requires from <= to <= |log|
  {
    Entry(log[from..to], j, q)
  }

  lemma BetweenExtend(n: nat, log: seq<Event>, from: nat, to: nat, j: nat, q: nat)
    requires ValidLog(n, log) && from <= to < |log|
    ensures Between(log, from, to + 1, j, q) ==
            if log[to].EntryPut? && log[to].job == j && log[to].player == q then Some(log[to].status)
            else Between(log, from, to, j, q)
  {
    NoDeletes(n, log);
    Append(log[from..to], log[to]);
    assert log[from..to + 1] == log[from..to] + [log[to]];
    assert log[to] in log;
  }

  lemma BetweenSplit(n: nat, log: seq<Event>, from: nat, mid: nat, to: nat, j: nat, q: nat)
    requires ValidLog(n, log) && from <= mid <= to <= |log|
    ensures Between(log, from, to, j, q) ==
            if Between(log, mid, to, j, q).Some? then Between(log, mid, to, j, q) else Between(log, from, mid, j, q)
  {
    NoDeletes(n, log);
    assert log[from..to] == log[from..mid] + log[mid..to];
    forall e | e in log[from..to] ensures e in log {}
    EntryConcat(log[from..mid], log[mid..to], j, q);
  }

  // The tables of a watcher whose handlers do not fail.

  /** A task table shows a stored value; a proxy whose status is still unset stands for no value. */
  predicate Shows(tasks: map<nat, TaskStatus>, q: nat, value: Option<TaskStatus>) {
    match value
    case None => q !in tasks || tasks[q] == BLANK
    case Some(st) => q in tasks && tasks[q] == st
  }

  function Base(log: seq<Event>, p: nat, v: Vcp): nat {
    if v.watcher.Reading? then Head(log, p) else v.watcher.base
  }

  function At(log: seq<Event>, p: nat, v: Vcp): nat {
    if v.watcher.Reading? then Head(log, p) else v.watcher.at
  }

  /** A proxy in a watch registered at revision base that has reached at: it shows the last event of this watch for
      that player; failing that the fold up to done, unless an event still to be replayed will overwrite it. */
  ghost predicate ProxyInv(log: seq<Event>, base: nat, at: nat, done: nat, j: nat, q: nat, tasks: map<nat, TaskStatus>)
    requires base <= at <= done <= |log|
  {
    if Between(log, base, at, j, q).Some? then Shows(tasks, q, Between(log, base, at, j, q))
    else if Between(log, base, done, j, q).None? then Shows(tasks, q, Between(log, 0, done, j, q))
    else q in tasks
  }

  ghost predicate TableInv(n: nat, m: nat, log: seq<Event>, p: nat, v: Vcp)
    requires WatchInv(log, p, v) && |v.cells| == m
  {
    && (forall j, q :: 0 <= j < m && 0 <= q < n && q != p ==>
          ProxyInv(log, Base(log, p, v), At(log, p, v), v.done, j, q, v.cells[j].tasks))
    && (forall j :: 0 <= j < m && Roster(log[..v.done], j).Some? ==> v.cells[j].job.Some?)
    && (p != 0 ==> forall j :: 0 <= j < m && v.cells[j].job.Some? ==> Roster(log[..v.done], j).Some?)
    && (v.watcher.Handling? && v.watcher.created ==> log[v.watcher.at].status == FIRST)
  }

  ghost predicate Tables(n: nat, m: nat, s: State) {
    Inv(n, m, s) && forall p :: 0 <= p < n ==> TableInv(n, m, s.log, p, s.vcps[p])
  }

  lemma TableFrame(n: nat, m: nat, log: seq<Event>, p: nat, v: Vcp, puts: seq<Event>, w: Vcp)
    requires WatchInv(log, p, v) && |v.cells| == m && TableInv(n, m, log, p, v)
    requires WatchInv(log + puts, p, w) && |w.cells| == m && w.done == v.done
    requires Base(log + puts, p, w) == Base(log, p, v) && At(log + puts, p, w) == At(log, p, v)
    requires w.watcher == v.watcher || !w.watcher.Handling? || !w.watcher.created
    requires forall j :: 0 <= j < m ==> w.cells[j].job.Some? == v.cells[j].job.Some?
                                        || (p == 0 && w.cells[j].job.Some?)
    requires forall j, q :: 0 <= j < m && 0 <= q < n && q != p ==>
               (q in w.cells[j].tasks <==> q in v.cells[j].tasks)
               && (q in v.cells[j].tasks ==> w.cells[j].tasks[q] == v.cells[j].tasks[q])
    ensures TableInv(n, m, log + puts, p, w)
  {
    var base, at, done := Base(log, p, v), At(log, p, v), v.done;
    assert (log + puts)[base..at] == log[base..at] && (log + puts)[base..done] == log[base..done];
    assert (log + puts)[0..done] == log[0..done] && (log + puts)[..done] == log[..done];
    forall j, q | 0 <= j < m && 0 <= q < n && q != p
      ensures ProxyInv(log + puts, base, at, done, j, q, w.cells[j].tasks)
    {
      assert ProxyInv(log, base, at, done, j, q, v.cells[j].tasks);
    }
  }

  /** A new watch starts at the stored head: nothing that will not be replayed is out of date. */
  lemma RestartProxy(n: nat, log: seq<Event>, base: nat, head: nat, at: nat, done: nat, j: nat, q: nat,
                     tasks: map<nat, TaskStatus>)
    requires ValidLog(n, log) && base <= head <= at <= done <= |log|
    requires ProxyInv(log, base, at, done, j, q, tasks)
    ensures ProxyInv(log, head, head, done, j, q, tasks)
  {
    BetweenSplit(n, log, base, head, done, j, q);
    BetweenSplit(n, log, base, at, done, j, q);
    BetweenSplit(n, log, base, head, at, j, q);
    BetweenSplit(n, log, head, at, done, j, q);
    BetweenSplit(n, log, 0, base, done, j, q);
    assert log[head..head] == [];
  }

  /** Moving past an event that says nothing about the proxy. */
  lemma PassProxy(n: nat, log: seq<Event>, base: nat, at: nat, done: nat, j: nat, q: nat, tasks: map<nat, TaskStatus>)
    requires ValidLog(n, log) && base <= at <= done <= |log| && at < |log|
    requires ProxyInv(log, base, at, done, j, q, tasks)
    requires !(log[at].EntryPut? && log[at].job == j && log[at].player == q)
    ensures ProxyInv(log, base, at + 1, if at == done then done + 1 else done, j, q, tasks)
  {
    BetweenExtend(n, log, base, at, j, q);
    if at == done {
      BetweenExtend(n, log, 0, done, j, q);
    }
  }

  /** Moving past an event the proxy now shows. */
  lemma ShowProxy(n: nat, log: seq<Event>, base: nat, at: nat, done: nat, j: nat, q: nat, tasks: map<nat, TaskStatus>)
    requires ValidLog(n, log) && base <= at <= done <= |log| && at < |log|
    requires log[at].EntryPut? && log[at].job == j && log[at].player == q && Shows(tasks, q, Some(log[at].status))
    ensures ProxyInv(log, base, at + 1, if at == done then done + 1 else done, j, q, tasks)
  {
    BetweenExtend(n, log, base, at, j, q);
  }

  /** The job of an entry event is known to a watcher that handled everything before; a proxy that does not exist
      yet is created for the first event of its player, which carries the initial status. */
  lemma EntryEventFacts(n: nat, m: nat, log: seq<Event>, p: nat, v: Vcp)
    requires ValidLog(n, log) && WatchInv(log, p, v) && |v.cells| == m && TableInv(n, m, log, p, v)
    requires v.watcher.Handling? && v.watcher.at < v.watcher.upto && log[v.watcher.at].EntryPut?
    requires log[v.watcher.at].job < m && log[v.watcher.at].player != p
    ensures var e := log[v.watcher.at]; var c := v.cells[e.job];
            && e.player < n
            && c.job.Some?
            && (e.player !in c.tasks ==> e.status == FIRST)
  {
    var at := v.watcher.at;
    var e := log[at];
    ValidPrefix(n, log, at);
    ValidPrefix(n, log, v.done);
    RosterStays(n, log, at, v.done, e.job);
    var base, tasks := v.watcher.base, v.cells[e.job].tasks;
    assert e.job < m && e.player < n;
    assert Base(log, p, v) == base && At(log, p, v) == at;
    var shown := ProxyInv(log, base, at, v.done, e.job, e.player, tasks);
    assert shown;
    assert log[0..at] == log[..at];
    if at < v.done {
      BetweenSplit(n, log, v.watcher.base, at, v.done, e.job, e.player);
      BetweenExtend(n, log, at, at, e.job, e.player);
      BetweenSplit(n, log, at, at + 1, v.done, e.job, e.player);
    }
  }

  lemma {:induction false} RosterStays(n: nat, log: seq<Event>, from: nat, to: nat, j: nat)
    requires ValidLog(n, log) && from <= to <= |log| && Roster(log[..from], j).Some?
    ensures Roster(log[..to], j).Some?
  {
    NoDeletes(n, log);
    assert log[..to] == log[..from] + log[from..to];
    forall e | e in log[..to] ensures e in log {}
    RosterConcat(log[..from], log[from..to], j);
  }

  // Preservation by every action but a dropped event.

  /** Apart from the watcher, nobody touches a proxy, and jobs appear on VCP 0 only. */
  ghost predicate SameProxies(p: nat, c: Cell, d: Cell) {
    && (c.job.Some? == d.job.Some? || (p == 0 && d.job.Some?))
    && (forall q :: q != p ==> (q in d.tasks <==> q in c.tasks))
    && (forall q :: q != p && q in c.tasks ==> d.tasks[q] == c.tasks[q])
  }

  lemma CellStepProxies(n: nat, log: seq<Event>, p: nat, j: nat, c: Cell, a: Action)
    requires IsCellAction(a)
    ensures SameProxies(p, c, CellStep(n, log, p, j, c, a).cell)
  {
    if a.TaskTick? {
      TaskStepChange(n, log, p, j, c, a.unread);
    }
  }

  /** Dispatching event e leaves the cells of other jobs and the proxies of other players alone. */
  lemma DispatchTables(n: nat, m: nat, log: seq<Event>, p: nat, v: Vcp)
    requires p < n && ValidLog(n, log) && CellsInv(n, m, log, p, v) && WatchInv(log, p, v) && TableInv(n, m, log, p, v)
    requires v.watcher.Handling? && v.watcher.at < v.watcher.upto
    requires WatchInv(log, p, WatchStep(log, p, v).vcp)
    ensures TableInv(n, m, log, p, WatchStep(log, p, v).vcp)
  {
    var w := WatchStep(log, p, v).vcp;
    var base, at := v.watcher.base, v.watcher.at;
    var e := log[at];
    NoDeletes(n, log);
    assert e in log;
    if e.EntryPut? && e.player != p && e.job < m {
      EntryEventFacts(n, m, log, p, v);
    }
    forall j, q | 0 <= j < m && 0 <= q < n && q != p
      ensures ProxyInv(log, base, w.watcher.at, w.done, j, q, w.cells[j].tasks)
    {
      assert ProxyInv(log, Base(log, p, v), At(log, p, v), v.done, j, q, v.cells[j].tasks);
      DispatchProxy(n, m, log, p, v, j, q);
    }
    DispatchJobs(n, m, log, p, v);
  }

  lemma DispatchProxy(n: nat, m: nat, log: seq<Event>, p: nat, v: Vcp, j: nat, q: nat)
    requires p < n && ValidLog(n, log) && |v.cells| == m && WatchInv(log, p, v) && j < m && q < n && q != p
    requires v.watcher.Handling? && v.watcher.at < v.watcher.upto
    requires var e := log[v.watcher.at];
             && !e.EntryDelete? && !e.RosterDelete?
             && (e.EntryPut? && e.player != p && e.job < m ==>
                   && v.cells[e.job].job.Some?
                   && (e.player !in v.cells[e.job].tasks || v.watcher.created ==> e.status == FIRST))
    requires ProxyInv(log, v.watcher.base, v.watcher.at, v.done, j, q, v.cells[j].tasks)
    requires WatchInv(log, p, WatchStep(log, p, v).vcp)
    ensures var w := WatchStep(log, p, v).vcp;
            |w.cells| == m && w.watcher.Handling? && w.watcher.base == v.watcher.base
            && ProxyInv(log, w.watcher.base, w.watcher.at, w.done, j, q, w.cells[j].tasks)
  {
    var w := WatchStep(log, p, v).vcp;
    var base, at := v.watcher.base, v.watcher.at;
    var e := log[at];
    DispatchedTasks(log, p, v, j, q);
    if e.EntryPut? && e.job == j && e.player == q {
      if w.watcher.at == at + 1 {
        ShowProxy(n, log, base, at, v.done, j, q, w.cells[j].tasks);
      } else {
        UnseenProxy(n, log, base, at, v.done, j, q, v.cells[j].tasks, w.cells[j].tasks);
      }
    } else if w.watcher.at == at + 1 {
      PassProxy(n, log, base, at, v.done, j, q, v.cells[j].tasks);
    }
  }

  /** The task of player q after the event at hand was dispatched. */
  lemma DispatchedTasks(log: seq<Event>, p: nat, v: Vcp, j: nat, q: nat)
    requires WatchInv(log, p, v) && v.watcher.Handling? && v.watcher.at < v.watcher.upto && j < |v.cells| && q != p
    requires !log[v.watcher.at].EntryDelete? && !log[v.watcher.at].RosterDelete?
    ensures var e := log[v.watcher.at]; var w := WatchStep(log, p, v).vcp;
            && |w.cells| == |v.cells|
            && (!(e.EntryPut? && e.job == j && e.player == q) ==>
                  && (q in w.cells[j].tasks <==> q in v.cells[j].tasks)
                  && (q in w.cells[j].tasks ==> w.cells[j].tasks[q] == v.cells[j].tasks[q]))
  {
  }

  /** Creating a proxy whose status is still unset: it stood for no value before and still does. */
  lemma UnseenProxy(n: nat, log: seq<Event>, base: nat, at: nat, done: nat, j: nat, q: nat,
                    tasks: map<nat, TaskStatus>, created: map<nat, TaskStatus>)
    requires base <= at <= done <= |log|
    requires ProxyInv(log, base, at, done, j, q, tasks) && q !in tasks && created == tasks[q := BLANK]
    ensures ProxyInv(log, base, at, done, j, q, created)
  {
  }

  lemma DispatchJobs(n: nat, m: nat, log: seq<Event>, p: nat, v: Vcp)
    requires p < n && ValidLog(n, log) && |v.cells| == m && WatchInv(log, p, v) && TableInv(n, m, log, p, v)
    requires v.watcher.Handling? && v.watcher.at < v.watcher.upto
    requires var e := log[v.watcher.at];
             && !e.EntryDelete? && !e.RosterDelete?
             && (e.EntryPut? && e.player != p && e.job < m && e.player !in v.cells[e.job].tasks ==> e.status == FIRST)
    ensures var w := WatchStep(log, p, v).vcp;
            && w.done <= |log|
            && (forall j :: 0 <= j < m && Roster(log[..w.done], j).Some? ==> w.cells[j].job.Some?)
            && (p != 0 ==> forall j :: 0 <= j < m && w.cells[j].job.Some? ==> Roster(log[..w.done], j).Some?)
            && (w.watcher.Handling? && w.watcher.created ==>
                  w.watcher.at < |log| && log[w.watcher.at].EntryPut? && log[w.watcher.at].status == FIRST)
  {
    var w := WatchStep(log, p, v).vcp;
    var at := v.watcher.at;
    assert log[..at + 1] == log[..at] + [log[at]];
    Append(log[..at], log[at]);
    if w.done == v.done && log[at].RosterPut? {
      RosterStays(n, log, at + 1, v.done, log[at].job);
    }
  }

  lemma RestartTables(n: nat, m: nat, log: seq<Event>, p: nat, v: Vcp, w: Vcp)
    requires ValidLog(n, log) && WatchInv(log, p, v) && |v.cells| == m && TableInv(n, m, log, p, v)
    requires w.watcher.Reading? && w.done == v.done && |w.cells| == m
    requires forall j :: 0 <= j < m ==> w.cells[j].tasks == v.cells[j].tasks && w.cells[j].job == v.cells[j].job
    requires WatchInv(log, p, w)
    ensures TableInv(n, m, log, p, w)
  {
    forall j, q | 0 <= j < m && 0 <= q < n && q != p
      ensures ProxyInv(log, Head(log, p), Head(log, p), w.done, j, q, w.cells[j].tasks)
    {
      assert ProxyInv(log, Base(log, p, v), At(log, p, v), v.done, j, q, v.cells[j].tasks);
      RestartProxy(n, log, Base(log, p, v), Head(log, p), At(log, p, v), v.done, j, q, v.cells[j].tasks);
    }
  }

  /** Registering a watch, receiving a response and storing the head neither move the watcher nor touch a table. */
  lemma OtherOperatorSteps(log: seq<Event>, p: nat, v: Vcp, a: Action)
    requires WatchInv(log, p, v) && (a.WatchTick? || a.Receive?)
    requires a.WatchTick? && v.watcher.Handling? ==> v.watcher.at >= v.watcher.upto
    ensures var eff := OperatorStep(log, p, v, a);
            && eff.vcp.cells == v.cells && eff.vcp.done == v.done
            && Base(log + eff.puts, p, eff.vcp) == Base(log, p, v) && At(log + eff.puts, p, eff.vcp) == At(log, p, v)
            && (eff.vcp.watcher == v.watcher || !eff.vcp.watcher.Handling? || !eff.vcp.watcher.created)
  {
    assert log + [] == log;
  }

  lemma OperatorTables(n: nat, m: nat, s: State, a: Action)
    requires Tables(n, m, s) && !IsCellAction(a) && !a.Drop? && PlayerOf(a) < n
    ensures Tables(n, m, Next(n, m, s, a))
  {
    var p := PlayerOf(a);
    var v := s.vcps[p];
    var eff := OperatorStep(s.log, p, v, a);
    var t := Next(n, m, s, a);
    NextKeeps(n, m, s, a);
    assert CellsInv(n, m, s.log, p, v);
    assert WatchInv(t.log, p, t.vcps[p]);
    assert t.log == s.log + eff.puts;
    if eff.puts == [] {
      assert t.log == s.log;
    }
    if a.WatchTick? && v.watcher.Handling? && v.watcher.at < v.watcher.upto {
      DispatchTables(n, m, s.log, p, v);
    } else if a.Reconnect? || a.Crash? {
      RestartTables(n, m, s.log, p, v, eff.vcp);
    } else {
      OtherOperatorSteps(s.log, p, v, a);
      TableFrame(n, m, s.log, p, v, eff.puts, eff.vcp);
    }
    OtherTables(n, m, s, p, t, eff.puts);
  }

  lemma OtherTables(n: nat, m: nat, s: State, p: nat, t: State, puts: seq<Event>)
    requires Tables(n, m, s) && Inv(n, m, t) && p < n && t.log == s.log + puts
    requires forall r :: 0 <= r < n && r != p ==> t.vcps[r] == s.vcps[r]
    requires |puts| <= 1 && forall e :: e in puts && e.HeadPut? ==> e.player == p
    ensures forall r :: 0 <= r < n && r != p ==> TableInv(n, m, t.log, r, t.vcps[r])
  {
    if puts == [] {
      assert s.log + puts == s.log;
    } else {
      assert puts == [puts[0]] && puts[0] in puts;
      Append(s.log, puts[0]);
    }
    forall r | 0 <= r < n && r != p ensures TableInv(n, m, t.log, r, t.vcps[r]) {
      TableFrame(n, m, s.log, r, s.vcps[r], puts, s.vcps[r]);
    }
  }

  lemma CellTables(n: nat, m: nat, s: State, a: Action)
    requires Tables(n, m, s) && IsCellAction(a) && PlayerOf(a) < n && a.job < m
    ensures Tables(n, m, Next(n, m, s, a))
  {
    var p, j := PlayerOf(a), a.job;
    var eff := CellStep(n, s.log, p, j, s.vcps[p].cells[j], a);
    var t := Next(n, m, s, a);
    NextKeeps(n, m, s, a);
    CellStepPuts(n, s.log, p, j, s.vcps[p].cells[j], a);
    assert WatchInv(t.log, p, t.vcps[p]) && CellInv(n, s.log, p, j, s.vcps[p].cells[j]);
    OwnTables(n, m, s.log, p, s.vcps[p], j, a);
    OtherTables(n, m, s, p, t, eff.puts);
  }

  lemma OwnTables(n: nat, m: nat, log: seq<Event>, p: nat, v: Vcp, j: nat, a: Action)
    requires p < n && j < m && |v.cells| == m && ValidLog(n, log) && CellInv(n, log, p, j, v.cells[j])
    requires WatchInv(log, p, v) && TableInv(n, m, log, p, v) && IsCellAction(a)
    ensures var eff := CellStep(n, log, p, j, v.cells[j], a); var w := v.(cells := v.cells[j := eff.cell]);
            WatchInv(log + eff.puts, p, w) ==> TableInv(n, m, log + eff.puts, p, w)
  {
    var eff := CellStep(n, log, p, j, v.cells[j], a);
    var w := v.(cells := v.cells[j := eff.cell]);
    CellStepPuts(n, log, p, j, v.cells[j], a);
    CellStepProxies(n, log, p, j, v.cells[j], a);
    if eff.puts != [] {
      Append(log, eff.puts[0]);
    } else {
      assert log + eff.puts == log;
    }
    if WatchInv(log + eff.puts, p, w) {
      TableFrame(n, m, log, p, v, eff.puts, w);
    }
  }

  predicate DropFree(acts: seq<Action>) {
    forall a :: a in acts ==> !a.Drop?
  }

  lemma {:induction false} TablesReachable(n: nat, m: nat, acts: seq<Action>)
    requires DropFree(acts)
    ensures Tables(n, m, Run(n, m, acts))
  {
    if acts == [] {
      InitInv(n, m);
    } else {
      var before, a := acts[..|acts| - 1], acts[|acts| - 1];
      TablesReachable(n, m, before);
      var s := Run(n, m, before);
      if PlayerOf(a) < n && (IsCellAction(a) ==> a.job < m) {
        if IsCellAction(a) {
          CellTables(n, m, s, a);
        } else {
          OperatorTables(n, m, s, a);
        }
      }
    }
  }
}

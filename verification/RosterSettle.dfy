/** From any state of a run in which no handler has failed, whatever else has happened in it, operator steps lead to a
    steady state: reconcilers end their passes, and watchers catch up with what they had dispatched before. */
module RosterSettle {
  import opened Wrappers
  import opened EtcdLog
  import opened RosterModel
  import opened RosterSafety
  import opened RosterReplay
  import opened RosterClean
  import opened RosterConvergence
  import opened RosterSupport

  /** A step of an operator that no failing read disturbs. */
  predicate OperatorTick(a: Action) {
    a.JobTick? || (a.TaskTick? && a.unread == {}) || a.WatchTick? || a.Receive?
  }

  predicate OperatorTicks(acts: seq<Action>) {
    forall a :: a in acts ==> OperatorTick(a)
  }

  lemma {:induction false} AfterConcat(n: nat, m: nat, s: State, a: seq<Action>, b: seq<Action>)
    requires Shape(n, m, s)
    ensures After(n, m, s, a + b) == After(n, m, After(n, m, s, a), b)
    decreases |a|
  {
    if a == [] {
      assert a + b == b;
    } else {
      AfterConcat(n, m, Next(n, m, s, a[0]), a[1..], b);
      assert (a + b)[1..] == a[1..] + b;
    }
  }

  lemma AfterOne(n: nat, m: nat, s: State, a: Action, rest: seq<Action>)
    requires Shape(n, m, s)
    ensures After(n, m, s, [a] + rest) == After(n, m, Next(n, m, s, a), rest)
  {
    assert ([a] + rest)[1..] == rest;
  }

  // Sums over all cells.

  function CellSum(f: Cell -> nat, v: Vcp): seq<int> {
    seq(|v.cells|, j requires 0 <= j < |v.cells| => f(v.cells[j]))
  }

  function VcpSum(f: Cell -> nat, s: State): seq<int> {
    seq(|s.vcps|, p requires 0 <= p < |s.vcps| => Sum(CellSum(f, s.vcps[p])))
  }

  function Total(f: Cell -> nat, s: State): int {
    Sum(VcpSum(f, s))
  }

  lemma TotalIsNatural(f: Cell -> nat, s: State)
    ensures Total(f, s) >= 0
  {
    forall p | 0 <= p < |s.vcps| ensures Sum(CellSum(f, s.vcps[p])) >= 0 {
      SumNat(CellSum(f, s.vcps[p]));
    }
    SumNat(VcpSum(f, s));
  }

  lemma TotalFalls(f: Cell -> nat, s: State, p: nat, j: nat, d: Cell, puts: seq<Event>)
    requires p < |s.vcps| && j < |s.vcps[p].cells| && f(d) < f(s.vcps[p].cells[j])
    ensures Total(f, WithCell(s, p, j, d, puts)) < Total(f, s)
  {
    var t := WithCell(s, p, j, d, puts);
    SumChange(CellSum(f, s.vcps[p]), CellSum(f, t.vcps[p]), j, 0, -1);
    SumChange(VcpSum(f, s), VcpSum(f, t), p, 0, -1);
  }

  // Reconcilers end their passes.

  function JobDistance(pc: JobPc): nat {
    match pc
    case JobIdle => 0
    case DeleteRoster => 1
    case UpdateJob(_) => 1
    case CreateTask => 1
    case Activate => 2
    case ListTasks(_) => 3
    case GetTask(_) => 4
    case PutRoster(_) => 5
    case GetRoster(_) => 6
  }

  function TaskDistance(pc: TaskPc): nat {
    match pc
    case TaskIdle => 0
    case DeleteEntry => 1
    case WriteStatus(_) => 1
    case CreateProvisioner(_) => 2
    case CreateGenerator(_, _) => 2
    case Collect(_, _) => 3
    case EnsureService(_) => 4
    case Act(_) => 5
    case RefreshTask(_) => 6
    case GetStatus => 7
    case PutEntry => 8
    case GetEntry => 9
  }

  function Distance(c: Cell): nat {
    JobDistance(c.jobPc) + TaskDistance(c.taskPc)
  }

  lemma JobDistanceFalls(n: nat, log: seq<Event>, p: nat, j: nat, c: Cell)
    requires c.jobPc != JobIdle
    ensures var d := JobStep(n, log, p, j, c).cell; JobDistance(d.jobPc) < JobDistance(c.jobPc) && d.taskPc == c.taskPc
  {
  }

  lemma TaskDistanceFalls(n: nat, log: seq<Event>, p: nat, j: nat, c: Cell, u: set<nat>)
    requires c.taskPc != TaskIdle
    ensures var d := TaskStep(n, log, p, j, c, u).cell;
            TaskDistance(d.taskPc) < TaskDistance(c.taskPc) && d.jobPc == c.jobPc
  {
  }

  predicate Idle(c: Cell) {
    c.jobPc == JobIdle && c.taskPc == TaskIdle
  }

  ghost predicate AllIdle(n: nat, m: nat, s: State) {
    && Shape(n, m, s)
    && forall p, j :: 0 <= p < n && 0 <= j < m ==> Idle(s.vcps[p].cells[j])
  }

  ghost predicate Sound(n: nat, m: nat, s: State) {
    Tables(n, m, s) && AllSupported(n, m, s)
  }

  lemma SoundStays(n: nat, m: nat, s: State, a: Action)
    requires Sound(n, m, s) && !a.Drop?
    ensures Sound(n, m, Next(n, m, s, a))
  {
    StepSupported(n, m, s, a);
    if PlayerOf(a) < n && (IsCellAction(a) ==> a.job < m) {
      if IsCellAction(a) {
        CellTables(n, m, s, a);
      } else {
        OperatorTables(n, m, s, a);
      }
    }
  }

  /** The next step of the pass that a cell is in. */
  function NextTick(c: Cell, p: nat, j: nat): (a: Action)
    ensures OperatorTick(a)
  {
    if c.jobPc != JobIdle then JobTick(p, j) else TaskTick(p, j, {})
  }

  lemma PassGoesOn(n: nat, m: nat, s: State, p: nat, j: nat)
    requires Shape(n, m, s) && p < n && j < m && !Idle(s.vcps[p].cells[j])
    ensures Total(Distance, Next(n, m, s, NextTick(s.vcps[p].cells[j], p, j))) < Total(Distance, s)
  {
    var c := s.vcps[p].cells[j];
    var eff := CellStep(n, s.log, p, j, c, NextTick(c, p, j));
    if c.jobPc != JobIdle {
      JobDistanceFalls(n, s.log, p, j, c);
    } else {
      TaskDistanceFalls(n, s.log, p, j, c, {});
    }
    TotalFalls(Distance, s, p, j, eff.cell, eff.puts);
  }

  lemma {:induction false} PassesEnd(n: nat, m: nat, s: State) returns (acts: seq<Action>)
    requires Sound(n, m, s)
    ensures OperatorTicks(acts) && Sound(n, m, After(n, m, s, acts)) && AllIdle(n, m, After(n, m, s, acts))
    decreases Total(Distance, s)
  {
    acts := [];
    if !AllIdle(n, m, s) {
      var p, j :| 0 <= p < n && 0 <= j < m && !Idle(s.vcps[p].cells[j]);
      var a := NextTick(s.vcps[p].cells[j], p, j);
      PassGoesOn(n, m, s, p, j);
      TotalIsNatural(Distance, Next(n, m, s, a));
      SoundStays(n, m, s, a);
      var rest := PassesEnd(n, m, Next(n, m, s, a));
      AfterOne(n, m, s, a, rest);
      acts := [a] + rest;
    }
  }

  // Watchers catch up.

  /** Player p's watcher made some steps: passes stay ended, and others stay caught up. */
  ghost predicate WatcherMoved(n: nat, m: nat, s: State, t: State, p: nat) {
    && AllIdle(n, m, t) && Sound(n, m, t) && |s.vcps| == n
    && forall r :: 0 <= r < n && r != p && CaughtUp(s.log, r, s.vcps[r]) ==> CaughtUp(t.log, r, t.vcps[r])
  }

  lemma WatcherMoves(n: nat, m: nat, s: State, p: nat, a: Action)
    requires AllIdle(n, m, s) && Sound(n, m, s) && p < n && (a == WatchTick(p) || (a.Receive? && a.player == p))
    ensures WatcherMoved(n, m, s, Next(n, m, s, a), p)
  {
    var t := Next(n, m, s, a);
    var eff := OperatorStep(s.log, p, s.vcps[p], a);
    SoundStays(n, m, s, a);
    assert WatchInv(s.log, p, s.vcps[p]) && CellsInv(n, m, s.log, p, s.vcps[p]);
    OperatorStepKeeps(n, m, s.log, p, s.vcps[p], a);
    forall r | 0 <= r < n && r != p && CaughtUp(s.log, r, s.vcps[r]) ensures CaughtUp(t.log, r, t.vcps[r]) {
      assert WatchInv(s.log, r, s.vcps[r]);
      CaughtUpFrame(s.log, eff.puts, r, s.vcps[r]);
    }
    forall j | 0 <= j < m ensures Idle(eff.vcp.cells[j]) {
      StaysIdle(s.log, p, s.vcps[p], a, j);
    }
  }

  lemma StaysIdle(log: seq<Event>, p: nat, v: Vcp, a: Action, j: nat)
    requires (a.WatchTick? || a.Receive?) && j < |v.cells| && Idle(v.cells[j])
    ensures var w := OperatorStep(log, p, v, a).vcp; j < |w.cells| && Idle(w.cells[j])
  {
  }

  /** The rest of a response is handled. */
  lemma {:induction false} ResponseEnds(n: nat, m: nat, s: State, p: nat) returns (acts: seq<Action>)
    requires AllIdle(n, m, s) && Sound(n, m, s) && p < n && s.vcps[p].watcher.Handling?
    ensures OperatorTicks(acts) && WatcherMoved(n, m, s, After(n, m, s, acts), p)
    ensures var v, w := s.vcps[p], After(n, m, s, acts).vcps[p];
            && w.watcher == Waiting(v.watcher.base, v.watcher.upto)
            && (v.done <= v.watcher.upto ==> w.done <= v.watcher.upto)
    decreases s.vcps[p].watcher.upto - s.vcps[p].watcher.at, if s.vcps[p].watcher.created then 0 else 1
  {
    var v := s.vcps[p];
    var t := Next(n, m, s, WatchTick(p));
    assert WatchInv(s.log, p, v);
    WatcherMoves(n, m, s, p, WatchTick(p));
    acts := [WatchTick(p)];
    AfterOne(n, m, s, WatchTick(p), []);
    if v.watcher.at < v.watcher.upto {
      assert t.vcps[p].watcher.Handling? && t.vcps[p].watcher.upto == v.watcher.upto;
      var rest := ResponseEnds(n, m, t, p);
      AfterOne(n, m, s, WatchTick(p), rest);
      acts := [WatchTick(p)] + rest;
    }
  }

  lemma Joined(n: nat, m: nat, s: State, first: seq<Action>, rest: seq<Action>, p: nat)
    requires Shape(n, m, s) && OperatorTicks(first) && OperatorTicks(rest)
    requires WatcherMoved(n, m, s, After(n, m, s, first), p)
    requires WatcherMoved(n, m, After(n, m, s, first), After(n, m, After(n, m, s, first), rest), p)
    ensures OperatorTicks(first + rest) && WatcherMoved(n, m, s, After(n, m, s, first + rest), p)
    ensures After(n, m, s, first + rest) == After(n, m, After(n, m, s, first), rest)
  {
    AfterConcat(n, m, s, first, rest);
  }

  lemma WatcherWaits(n: nat, m: nat, s: State, p: nat) returns (acts: seq<Action>)
    requires AllIdle(n, m, s) && Sound(n, m, s) && p < n
    ensures OperatorTicks(acts) && WatcherMoved(n, m, s, After(n, m, s, acts), p)
    ensures After(n, m, s, acts).vcps[p].watcher.Waiting?
  {
    match s.vcps[p].watcher {
      case Reading =>
        acts := [WatchTick(p)];
        WatcherMoves(n, m, s, p, WatchTick(p));
        AfterOne(n, m, s, WatchTick(p), []);
      case Waiting(_, _) => acts := [];
      case Handling(_, _, _, _) => acts := ResponseEnds(n, m, s, p);
    }
  }

  lemma WatcherCatchesUp(n: nat, m: nat, s: State, p: nat) returns (acts: seq<Action>)
    requires AllIdle(n, m, s) && Sound(n, m, s) && p < n
    ensures OperatorTicks(acts) && WatcherMoved(n, m, s, After(n, m, s, acts), p)
    ensures var t := After(n, m, s, acts); CaughtUp(t.log, p, t.vcps[p])
  {
    acts := WatcherWaits(n, m, s, p);
    var t := After(n, m, s, acts);
    if !CaughtUp(t.log, p, t.vcps[p]) {
      var more := RestIsReplayed(n, m, t, p);
      Joined(n, m, s, acts, more, p);
      acts := acts + more;
    }
  }

  /** One response with everything there is. */
  lemma RestIsReplayed(n: nat, m: nat, s: State, p: nat) returns (acts: seq<Action>)
    requires AllIdle(n, m, s) && Sound(n, m, s) && p < n && s.vcps[p].watcher.Waiting?
    requires !CaughtUp(s.log, p, s.vcps[p])
    ensures OperatorTicks(acts) && WatcherMoved(n, m, s, After(n, m, s, acts), p)
    ensures var t := After(n, m, s, acts); CaughtUp(t.log, p, t.vcps[p])
  {
    var a := Receive(p, |s.log|);
    assert WatchInv(s.log, p, s.vcps[p]);
    var t := Next(n, m, s, a);
    WatcherMoves(n, m, s, p, a);
    AfterOne(n, m, s, a, []);
    assert t.vcps[p].watcher.Handling? && t.vcps[p].watcher.upto == |s.log| && t.vcps[p].done <= |s.log|;
    acts := ResponseEnds(n, m, t, p);
    Joined(n, m, s, [a], acts, p);
    acts := [a] + acts;
  }

  lemma {:induction false} WatchersCatchUp(n: nat, m: nat, s: State, k: nat) returns (acts: seq<Action>)
    requires AllIdle(n, m, s) && Sound(n, m, s) && k <= n
    requires forall r :: 0 <= r < k ==> CaughtUp(s.log, r, s.vcps[r])
    ensures OperatorTicks(acts) && AllIdle(n, m, After(n, m, s, acts)) && Sound(n, m, After(n, m, s, acts))
    ensures var t := After(n, m, s, acts); forall r :: 0 <= r < n ==> CaughtUp(t.log, r, t.vcps[r])
    decreases n - k
  {
    acts := [];
    if k < n {
      acts := WatcherCatchesUp(n, m, s, k);
      var rest := WatchersCatchUp(n, m, After(n, m, s, acts), k + 1);
      AfterConcat(n, m, s, acts, rest);
      acts := acts + rest;
    }
  }

  // That state is steady.

  lemma CellIsSteady(n: nat, m: nat, s: State, p: nat, j: nat)
    requires AllIdle(n, m, s) && Sound(n, m, s) && p < n && j < m && CaughtUp(s.log, p, s.vcps[p])
    ensures SteadyCell(n, s.log, p, j, s.vcps[p].cells[j])
  {
    var c := s.vcps[p].cells[j];
    assert VcpSupported(n, m, s.log, p, s.vcps[p]);
    var seen := s.log[..s.vcps[p].done];
    assert Supported(n, s.log, seen, p, j, c) && Idle(c);
    forall q | 0 <= q < n && q != p ensures Shows(c.tasks, q, Entry(seen, j, q)) {
      CaughtUpProxies(n, m, s, p, j, q);
    }
    assert Ended(n, seen, p, j, c.tasks) ==> AllTerminal(n, c.tasks) by {
      if Ended(n, seen, p, j, c.tasks) {
        forall q | 0 <= q < n ensures q in c.tasks && Terminal(c.tasks[q].state) {
          assert q != p ==> Shows(c.tasks, q, Entry(seen, j, q));
        }
      }
    }
    assert Known(n, seen, p, j, c.tasks) ==> AllEndpoints(n, c.tasks) by {
      if Known(n, seen, p, j, c.tasks) {
        forall q | 0 <= q < n ensures q in c.tasks && c.tasks[q].endpoint != "" {
          assert q != p ==> Published(seen, j, q) != "";
        }
      }
    }
  }

  /** From every state of a run without handler failures, operator steps lead to a steady state. */
  lemma Settles(n: nat, m: nat, acts: seq<Action>) returns (more: seq<Action>)
    requires DropFree(acts)
    ensures OperatorTicks(more) && Steady(n, m, After(n, m, Run(n, m, acts), more))
  {
    var s := Run(n, m, acts);
    TablesReachable(n, m, acts);
    SupportReachable(n, m, acts);
    more := PassesEnd(n, m, s);
    var rest := WatchersCatchUp(n, m, After(n, m, s, more), 0);
    AfterConcat(n, m, s, more, rest);
    more := more + rest;
    var t := After(n, m, s, more);
    forall p, j | 0 <= p < n && 0 <= j < m ensures SteadyCell(n, t.log, p, j, t.vcps[p].cells[j]) {
      CellIsSteady(n, m, t, p, j);
    }
  }
}

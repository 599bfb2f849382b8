/** Convergence of the roster protocol from steady states on. Every write of an operator lowers a natural number that
    nothing else raises, so only finitely many writes happen. */
module RosterConvergence {
  import opened Wrappers
  import opened EtcdLog
  import opened RosterModel
  import opened RosterSafety
  import opened RosterReplay
  import opened RosterClean

  // Sums.

  function Sum(s: seq<int>): int {
    if s == [] then 0 else Sum(s[..|s| - 1]) + s[|s| - 1]
  }

  lemma {:induction false} SumNat(s: seq<int>)
    requires forall i :: 0 <= i < |s| ==> s[i] >= 0
    ensures Sum(s) >= 0
  {
    if s != [] {
      SumNat(s[..|s| - 1]);
    }
  }

  /** Every element grows by at most d, and element k by x more. */
  lemma {:induction false} SumChange(s: seq<int>, t: seq<int>, k: nat, d: int, x: int)
    requires |s| == |t| && k < |s|
    requires forall i :: 0 <= i < |s| && i != k ==> t[i] <= s[i] + d
    requires t[k] <= s[k] + d + x
    ensures Sum(t) <= Sum(s) + d * |s| + x
  {
    if k == |s| - 1 {
      SumShift(s[..k], t[..k], d);
    } else {
      SumChange(s[..|s| - 1], t[..|s| - 1], k, d, x);
    }
  }

  lemma {:induction false} SumShift(s: seq<int>, t: seq<int>, d: int)
    requires |s| == |t| && forall i :: 0 <= i < |s| ==> t[i] <= s[i] + d
    ensures Sum(t) <= Sum(s) + d * |s|
  {
    if s != [] {
      SumShift(s[..|s| - 1], t[..|s| - 1], d);
    }
  }

  // The measure.

  /** Roster events at revisions above from. */
  function Undelivered(log: seq<Event>, from: nat): nat
    decreases |log| - from
  {
    if from >= |log| then 0
    else Undelivered(log, from + 1) + (if IsRosterEvent(log[from]) then 1 else 0)
  }

  lemma {:induction false} UndeliveredAppend(log: seq<Event>, from: nat, e: Event)
    requires from <= |log|
    ensures Undelivered(log + [e], from) == Undelivered(log, from) + (if IsRosterEvent(e) then 1 else 0)
    decreases |log| - from
  {
    if from < |log| {
      UndeliveredAppend(log, from + 1, e);
      assert (log + [e])[from] == log[from];
    } else {
      assert Undelivered(log + [e], from + 1) == 0;
    }
  }

  lemma {:induction false} UndeliveredSome(log: seq<Event>, from: nat, upto: nat)
    requires from <= upto <= |log|
    ensures Undelivered(log, from) >= Undelivered(log, upto)
    ensures (exists i :: from <= i < upto && IsRosterEvent(log[i])) ==> Undelivered(log, from) > Undelivered(log, upto)
    ensures Undelivered(log, from) == 0 ==> forall i :: from <= i < |log| ==> !IsRosterEvent(log[i])
    decreases |log| - from
  {
    if from < |log| {
      UndeliveredSome(log, from + 1, if upto == from then upto + 1 else upto);
    }
  }

  /** What may still happen to a roster entry; every step of it may cost each VCP four units of event handling. */
  function EntryBudget(n: nat, log: seq<Event>, j: nat, p: nat): nat {
    Times(4 * n + 2, match Entry(log, j, p) case None => 7 case Some(st) => 7 - Rank(st))
  }

  function Times(w: nat, k: nat): nat {
    if k == 0 then 0 else w + Times(w, k - 1)
  }

  function ClaimBudget(entry: Option<TaskStatus>, pvc: bool): nat {
    if entry.Some? && Terminal(entry.value.state) then (if pvc then 1 else 0) else (if pvc then 1 else 2)
  }

  function OwnedBudget(o: Owned): nat {
    (if o.service.Some? then 0 else 1) + (if o.generator.Some? then 0 else 1) + (if o.provisioner.Some? then 0 else 1)
  }

  function TaskBudget(entry: Option<TaskStatus>, p: nat, t: map<nat, TaskStatus>): nat {
    if p !in t then 1 else if entry.Some? && t[p] != entry.value then 1 else 0
  }

  function JobBudget(c: Cell): nat {
    (if c.activated then 0 else 1) + (if c.job.None? then 4 else 3 - JobRank(c.job.value.state))
  }

  function RosterBudget(n: nat, log: seq<Event>, j: nat, p: nat): nat {
    if p == 0 && Roster(log, j).None? then 4 * n + 1 else 0
  }

  function CellBudget(n: nat, log: seq<Event>, p: nat, j: nat, c: Cell): nat {
    EntryBudget(n, log, j, p) + RosterBudget(n, log, j, p) + ClaimBudget(Entry(log, j, p), c.owned.pvc)
    + OwnedBudget(c.owned) + TaskBudget(Entry(log, j, p), p, c.tasks) + JobBudget(c)
  }

  /** Four units per event to be received, two per event in hand, one for storing the head. */
  function WatchBudget(log: seq<Event>, p: nat, v: Vcp): int {
    match v.watcher
    case Reading => 4 * Undelivered(log, Head(log, p))
    case Waiting(_, at) => 4 * Undelivered(log, at)
    case Handling(_, at, upto, created) =>
      4 * Undelivered(log, upto) + 2 * (Undelivered(log, at) - Undelivered(log, upto)) + (if created then 0 else 1)
  }

  function CellBudgets(n: nat, log: seq<Event>, p: nat, v: Vcp): seq<int> {
    seq(|v.cells|, j requires 0 <= j < |v.cells| => CellBudget(n, log, p, j, v.cells[j]))
  }

  function VcpBudget(n: nat, log: seq<Event>, p: nat, v: Vcp): int {
    WatchBudget(log, p, v) + Sum(CellBudgets(n, log, p, v))
  }

  function VcpBudgets(n: nat, s: State): seq<int> {
    seq(|s.vcps|, p requires 0 <= p < |s.vcps| => VcpBudget(n, s.log, p, s.vcps[p]))
  }

  function Budget(n: nat, s: State): int {
    Sum(VcpBudgets(n, s))
  }

  /** The part of a cell that lives in etcd, Kubernetes or Castor. */
  function Durable(c: Cell): Cell {
    c.(jobPc := JobIdle, taskPc := TaskIdle)
  }

  ghost predicate SameWorld(s: State, t: State) {
    && s.log == t.log && |s.vcps| == |t.vcps|
    && (forall p :: 0 <= p < |s.vcps| ==> |s.vcps[p].cells| == |t.vcps[p].cells|)
    && (forall p, j :: 0 <= p < |s.vcps| && 0 <= j < |s.vcps[p].cells| ==>
          Durable(s.vcps[p].cells[j]) == Durable(t.vcps[p].cells[j]))
  }

  predicate ByOperator(a: Action) {
    a.JobTick? || a.TaskTick? || a.WatchTick? || a.Receive?
  }

  // Steps of one cell.

  lemma JobStepBudget(n: nat, log: seq<Event>, p: nat, j: nat, c: Cell)
    requires p < n && JobInv(n, log, p, j, c) && JobPcInv(n, log, p, j, c) && TasksInv(n, log, p, j, c) && JobForward(n, c)
    ensures var eff := JobStep(n, log, p, j, c);
            if eff.puts == [] then
              && CellBudget(n, log, p, j, eff.cell) <= CellBudget(n, log, p, j, c)
              && (Durable(eff.cell) != Durable(c) ==> CellBudget(n, log, p, j, eff.cell) < CellBudget(n, log, p, j, c))
            else
              && eff.puts == [RosterPut(j, c.jobPc.job.spec)] && p == 0 && Roster(log, j).None?
              && Durable(eff.cell) == Durable(c)
  {
  }

  lemma TaskStepBudget(n: nat, log: seq<Event>, p: nat, j: nat, c: Cell, u: set<nat>)
    requires p < n && PodsInv(n, log, p, j, c) && TaskPcInv(n, log, p, j, c) && TaskForward(n, log, p, j, c)
    ensures var eff := TaskStep(n, log, p, j, c, u);
            if eff.puts == [] then
              && CellBudget(n, log, p, j, eff.cell) <= CellBudget(n, log, p, j, c)
              && (Durable(eff.cell) != Durable(c) ==> CellBudget(n, log, p, j, eff.cell) < CellBudget(n, log, p, j, c))
            else
              && Durable(eff.cell) == Durable(c)
              && |eff.puts| == 1 && eff.puts[0].EntryPut? && eff.puts[0].job == j && eff.puts[0].player == p
              && (if Entry(log, j, p).None? then eff.puts[0].status == FIRST
                  else Rank(Entry(log, j, p).value) < Rank(eff.puts[0].status))
  {
    if c.taskPc.Act? {
      ActBudget(n, log, p, j, c, c.taskPc.status, u);
    } else if !c.taskPc.PutEntry? && !c.taskPc.WriteStatus? {
      TaskReadBudget(n, log, p, j, c, u);
    }
  }

  lemma TaskReadBudget(n: nat, log: seq<Event>, p: nat, j: nat, c: Cell, u: set<nat>)
    requires TaskPcInv(n, log, p, j, c) && !c.taskPc.PutEntry? && !c.taskPc.WriteStatus? && !c.taskPc.Act?
    ensures var eff := TaskStep(n, log, p, j, c, u);
            && eff.puts == []
            && CellBudget(n, log, p, j, eff.cell) <= CellBudget(n, log, p, j, c)
            && (Durable(eff.cell) != Durable(c) ==> CellBudget(n, log, p, j, eff.cell) < CellBudget(n, log, p, j, c))
  {
    var d := TaskStep(n, log, p, j, c, u).cell;
    if c.taskPc.RefreshTask? || c.taskPc.EnsureService? || c.taskPc.CreateGenerator? || c.taskPc.CreateProvisioner? {
      TaskCreateBudget(n, log, p, j, c, u);
    } else {
      assert Durable(d) == Durable(c);
      assert CellBudget(n, log, p, j, d) == CellBudget(n, log, p, j, Durable(c)) == CellBudget(n, log, p, j, c);
    }
  }

  lemma TaskCreateBudget(n: nat, log: seq<Event>, p: nat, j: nat, c: Cell, u: set<nat>)
    requires TaskPcInv(n, log, p, j, c)
    requires c.taskPc.RefreshTask? || c.taskPc.EnsureService? || c.taskPc.CreateGenerator? || c.taskPc.CreateProvisioner?
    ensures var d := TaskStep(n, log, p, j, c, u).cell;
            && CellBudget(n, log, p, j, d) <= CellBudget(n, log, p, j, c)
            && (Durable(d) != Durable(c) ==> CellBudget(n, log, p, j, d) < CellBudget(n, log, p, j, c))
  {
  }

  lemma ActBudget(n: nat, log: seq<Event>, p: nat, j: nat, c: Cell, st: TaskStatus, u: set<nat>)
    requires PodsInv(n, log, p, j, c) && Entry(log, j, p) == Some(st)
    ensures var d := ActStep(n, p, c, st, u);
            && CellBudget(n, log, p, j, d) <= CellBudget(n, log, p, j, c)
            && (Durable(d) != Durable(c) ==> CellBudget(n, log, p, j, d) < CellBudget(n, log, p, j, c))
  {
  }

  /** A put pays for its delivery to all VCPs. */
  lemma PutBudget(n: nat, log: seq<Event>, p: nat, j: nat, c: Cell, d: Cell, e: Event)
    requires Durable(d) == Durable(c)
    requires
      || (e.RosterPut? && e.job == j && p == 0 && Roster(log, j).None?)
      || (e.EntryPut? && e.job == j && e.player == p
          && (if Entry(log, j, p).None? then e.status == FIRST else Rank(Entry(log, j, p).value) < Rank(e.status)))
    ensures CellBudget(n, log + [e], p, j, d) <= CellBudget(n, log, p, j, c) - (4 * n + 1)
  {
    Append(log, e);
    if e.EntryPut? {
      EntryPutBudget(n, log, p, j, e.status);
      assert RosterBudget(n, log + [e], j, p) == RosterBudget(n, log, j, p);
      assert TaskBudget(Some(e.status), p, c.tasks) <= TaskBudget(Entry(log, j, p), p, c.tasks) + 1;
    }
  }

  lemma EntryPutBudget(n: nat, log: seq<Event>, p: nat, j: nat, st: TaskStatus)
    requires if Entry(log, j, p).None? then st == FIRST else Rank(Entry(log, j, p).value) < Rank(st)
    ensures EntryBudget(n, log + [EntryPut(j, p, st)], j, p) <= EntryBudget(n, log, j, p) - (4 * n + 2)
    ensures ClaimBudget(Some(st), true) <= ClaimBudget(Entry(log, j, p), true)
    ensures ClaimBudget(Some(st), false) <= ClaimBudget(Entry(log, j, p), false)
  {
    Append(log, EntryPut(j, p, st));
    LessRank(4 * n + 2, match Entry(log, j, p) case None => 7 case Some(now) => 7 - Rank(now), 7 - Rank(st));
  }

  lemma {:induction false} LessRank(w: nat, a: nat, b: nat)
    requires b < a
    ensures Times(w, b) <= Times(w, a) - w
  {
    if b < a - 1 {
      LessRank(w, a - 1, b);
    }
  }

  /** An effect never raises the budget of its cell, lowers it if tick is an operator's and changes something, and
      pays for the delivery of what it puts. */
  ghost predicate Pays(n: nat, log: seq<Event>, p: nat, j: nat, c: Cell, eff: Effect, tick: bool) {
    if eff.puts == [] then
      && CellBudget(n, log, p, j, eff.cell) <= CellBudget(n, log, p, j, c)
      && (tick && Durable(eff.cell) != Durable(c) ==> CellBudget(n, log, p, j, eff.cell) < CellBudget(n, log, p, j, c))
    else
      && |eff.puts| == 1 && IsRosterEvent(eff.puts[0]) && OtherCell(eff.puts[0], p, j)
      && CellBudget(n, log + eff.puts, p, j, eff.cell) <= CellBudget(n, log, p, j, c) - (4 * n + 1)
  }

  lemma CellActionBudget(n: nat, log: seq<Event>, p: nat, j: nat, c: Cell, a: Action)
    requires p < n && CellInv(n, log, p, j, c) && SteadyCell(n, log, p, j, c) && IsCellAction(a)
    ensures Pays(n, log, p, j, c, CellStep(n, log, p, j, c, a), ByOperator(a))
  {
    var eff := CellStep(n, log, p, j, c, a);
    if a.JobTick? {
      JobStepBudget(n, log, p, j, c);
      if eff.puts != [] {
        PutBudget(n, log, p, j, c, eff.cell, eff.puts[0]);
      }
    } else if a.TaskTick? {
      TaskStepBudget(n, log, p, j, c, a.unread);
      if eff.puts != [] {
        assert eff.puts == [eff.puts[0]];
        PutBudget(n, log, p, j, c, eff.cell, eff.puts[0]);
      }
    } else {
      EnvironmentBudget(n, log, p, j, c, a);
    }
  }

  /** The event is put by cell (p, j): no other cell's budget depends on it. */
  predicate OtherCell(e: Event, p: nat, j: nat) {
    (e.RosterPut? && e.job == j && p == 0) || (e.EntryPut? && e.job == j && e.player == p)
  }

  lemma EnvironmentBudget(n: nat, log: seq<Event>, p: nat, j: nat, c: Cell, a: Action)
    requires IsCellAction(a) && !a.JobTick? && !a.TaskTick?
    ensures var eff := CellStep(n, log, p, j, c, a);
            eff.puts == [] && CellBudget(n, log, p, j, eff.cell) <= CellBudget(n, log, p, j, c)
  {
  }

  lemma CellFrameBudget(n: nat, log: seq<Event>, p: nat, j: nat, c: Cell, e: Event)
    requires !OtherCell(e, p, j) && !e.EntryDelete? && !e.RosterDelete?
    ensures CellBudget(n, log + [e], p, j, c) <= CellBudget(n, log, p, j, c)
  {
    Append(log, e);
  }

  lemma WatchFrameBudget(log: seq<Event>, p: nat, v: Vcp, e: Event)
    requires WatchInv(log, p, v) && !(e.HeadPut? && e.player == p)
    ensures WatchBudget(log + [e], p, v) == WatchBudget(log, p, v) + (if IsRosterEvent(e) then 4 else 0)
  {
    Append(log, e);
    match v.watcher {
      case Reading => UndeliveredAppend(log, Head(log, p), e);
      case Waiting(_, at) => UndeliveredAppend(log, at, e);
      case Handling(_, at, upto, _) =>
        UndeliveredAppend(log, at, e);
        UndeliveredAppend(log, upto, e);
    }
  }

  /** What an event put elsewhere costs a VCP: its delivery. */
  lemma OtherVcp(n: nat, log: seq<Event>, p: nat, v: Vcp, e: Event)
    requires WatchInv(log, p, v) && !e.EntryDelete? && !e.RosterDelete? && !(e.HeadPut? && e.player == p)
    requires forall j :: 0 <= j < |v.cells| ==> !OtherCell(e, p, j)
    ensures VcpBudget(n, log + [e], p, v) <= VcpBudget(n, log, p, v) + (if IsRosterEvent(e) then 4 else 0)
  {
    WatchFrameBudget(log, p, v, e);
    forall j | 0 <= j < |v.cells|
      ensures CellBudget(n, log + [e], p, j, v.cells[j]) <= CellBudget(n, log, p, j, v.cells[j])
    {
      CellFrameBudget(n, log, p, j, v.cells[j], e);
    }
    SumShift(CellBudgets(n, log, p, v), CellBudgets(n, log + [e], p, v), 0);
  }

  /** What a step of one of its cells does to the budget of a VCP. */
  lemma OwnVcp(n: nat, log: seq<Event>, p: nat, v: Vcp, j: nat, d: Cell, puts: seq<Event>)
    requires WatchInv(log, p, v) && j < |v.cells|
    requires puts == [] || (|puts| == 1 && OtherCell(puts[0], p, j))
    ensures VcpBudget(n, log + puts, p, v.(cells := v.cells[j := d]))
            <= VcpBudget(n, log, p, v) + (if puts == [] then 0 else 4)
               + (CellBudget(n, log + puts, p, j, d) - CellBudget(n, log, p, j, v.cells[j]))
  {
    var w := v.(cells := v.cells[j := d]);
    var x := CellBudget(n, log + puts, p, j, d) - CellBudget(n, log, p, j, v.cells[j]);
    if puts == [] {
      assert log + puts == log;
    } else {
      assert puts == [puts[0]];
      WatchFrameBudget(log, p, v, puts[0]);
      forall k | 0 <= k < |v.cells| && k != j
        ensures CellBudget(n, log + puts, p, k, v.cells[k]) <= CellBudget(n, log, p, k, v.cells[k])
      {
        CellFrameBudget(n, log, p, k, v.cells[k], puts[0]);
      }
    }
    assert WatchBudget(log + puts, p, w) == WatchBudget(log + puts, p, v);
    SumChange(CellBudgets(n, log, p, v), CellBudgets(n, log + puts, p, w), j, 0, x);
  }

  lemma WithCellBudget(n: nat, m: nat, s: State, p: nat, j: nat, eff: Effect)
    requires Inv(n, m, s) && p < n && j < m
    requires eff.puts == [] || (|eff.puts| == 1 && OtherCell(eff.puts[0], p, j))
    ensures Budget(n, WithCell(s, p, j, eff.cell, eff.puts))
            <= Budget(n, s) + (if eff.puts == [] then 0 else 4 * n)
               + (CellBudget(n, s.log + eff.puts, p, j, eff.cell) - CellBudget(n, s.log, p, j, s.vcps[p].cells[j]))
  {
    var t := WithCell(s, p, j, eff.cell, eff.puts);
    var x := CellBudget(n, t.log, p, j, eff.cell) - CellBudget(n, s.log, p, j, s.vcps[p].cells[j]);
    var d := if eff.puts == [] then 0 else 4;
    assert WatchInv(s.log, p, s.vcps[p]);
    OwnVcp(n, s.log, p, s.vcps[p], j, eff.cell, eff.puts);
    forall r | 0 <= r < n && r != p ensures VcpBudget(n, t.log, r, t.vcps[r]) <= VcpBudget(n, s.log, r, s.vcps[r]) + d {
      assert WatchInv(s.log, r, s.vcps[r]);
      if eff.puts == [] {
        assert t.log == s.log;
      } else {
        assert eff.puts == [eff.puts[0]];
        OtherVcp(n, s.log, r, s.vcps[r], eff.puts[0]);
      }
    }
    SumChange(VcpBudgets(n, s), VcpBudgets(n, t), p, d, x);
  }

  lemma EffectProgress(n: nat, m: nat, s: State, p: nat, j: nat, eff: Effect, tick: bool)
    requires Inv(n, m, s) && p < n && j < m && Pays(n, s.log, p, j, s.vcps[p].cells[j], eff, tick)
    ensures var t := WithCell(s, p, j, eff.cell, eff.puts);
            && Budget(n, t) <= Budget(n, s)
            && (tick && !SameWorld(s, t) ==> Budget(n, t) < Budget(n, s))
  {
    var c, t := s.vcps[p].cells[j], WithCell(s, p, j, eff.cell, eff.puts);
    var before, after := CellBudget(n, s.log, p, j, c), CellBudget(n, s.log + eff.puts, p, j, eff.cell);
    PaysWell(n, s.log, p, j, c, eff, tick);
    WithCellBudget(n, m, s, p, j, eff);
    if eff.puts == [] && Durable(eff.cell) == Durable(c) {
      SameCell(s, p, j, eff.cell);
    }
  }

  lemma PaysWell(n: nat, log: seq<Event>, p: nat, j: nat, c: Cell, eff: Effect, tick: bool)
    requires Pays(n, log, p, j, c, eff, tick)
    ensures eff.puts == [] || (|eff.puts| == 1 && OtherCell(eff.puts[0], p, j))
    ensures var x := CellBudget(n, log + eff.puts, p, j, eff.cell) - CellBudget(n, log, p, j, c);
            var d := if eff.puts == [] then 0 else 4 * n;
            && d + x <= 0
            && (tick && (eff.puts != [] || Durable(eff.cell) != Durable(c)) ==> d + x < 0)
  {
    if eff.puts == [] {
      assert log + eff.puts == log;
    }
  }

  lemma SameCell(s: State, p: nat, j: nat, d: Cell)
    requires p < |s.vcps| && j < |s.vcps[p].cells| && Durable(d) == Durable(s.vcps[p].cells[j])
    ensures SameWorld(s, WithCell(s, p, j, d, []))
  {
    assert s.log + [] == s.log;
  }

  lemma CellProgress(n: nat, m: nat, s: State, a: Action)
    requires Steady(n, m, s) && IsCellAction(a) && CleanAction(a) && PlayerOf(a) < n && a.job < m
    ensures var t := Next(n, m, s, a);
            && Budget(n, t) <= Budget(n, s)
            && (ByOperator(a) && !SameWorld(s, t) ==> Budget(n, t) < Budget(n, s))
  {
    var p, j := PlayerOf(a), a.job;
    var c := s.vcps[p].cells[j];
    assert CellInv(n, s.log, p, j, c) && SteadyCell(n, s.log, p, j, c);
    CellActionBudget(n, s.log, p, j, c, a);
    EffectProgress(n, m, s, p, j, CellStep(n, s.log, p, j, c, a), ByOperator(a));
  }

  // Steps of the watcher.

  function Dispatched(p: nat, c: Cell, e: Event, created: bool): Cell {
    if !created then HandleEvent(p, c, e)
    else if e.EntryPut? then c.(tasks := c.tasks[e.player := FIRST]) else c
  }

  lemma DispatchBudget(n: nat, log: seq<Event>, p: nat, j: nat, c: Cell, e: Event, created: bool)
    requires !e.EntryDelete? && !e.RosterDelete? && (created ==> e.EntryPut? && e.player != p)
    ensures CellBudget(n, log, p, j, Dispatched(p, c, e, created)) <= CellBudget(n, log, p, j, c)
  {
  }

  /** Dispatching an event is paid for by the event. */
  lemma WatchStepBudget(n: nat, m: nat, log: seq<Event>, p: nat, v: Vcp)
    requires ValidLog(n, log) && |v.cells| == m && WatchInv(log, p, v)
    requires v.watcher.Handling? && v.watcher.at < v.watcher.upto
    ensures PaysWatch(n, log, p, v, WatchStep(log, p, v))
  {
    var w := WatchStep(log, p, v).vcp;
    var e := log[v.watcher.at];
    NoDeletes(n, log);
    assert e in log && log + [] == log;
    WatchStepShape(log, p, v);
    if IsRosterEvent(e) && e.job < m {
      DispatchBudget(n, log, p, e.job, v.cells[e.job], e, v.watcher.created);
      SumChange(CellBudgets(n, log, p, v), CellBudgets(n, log, p, w), e.job, 0, 0);
    } else {
      assert CellBudgets(n, log, p, w) == CellBudgets(n, log, p, v);
    }
  }

  lemma WatchStepShape(log: seq<Event>, p: nat, v: Vcp)
    requires WatchInv(log, p, v) && v.watcher.Handling? && v.watcher.at < v.watcher.upto
    ensures var eff := WatchStep(log, p, v); var e := log[v.watcher.at];
            && eff.puts == []
            && WatchBudget(log, p, eff.vcp) <= WatchBudget(log, p, v)
            && (if IsRosterEvent(e) && e.job < |v.cells| then
                  && eff.vcp.cells == v.cells[e.job := Dispatched(p, v.cells[e.job], e, v.watcher.created)]
                  && WatchBudget(log, p, eff.vcp) < WatchBudget(log, p, v)
                else eff.vcp.cells == v.cells)
  {
    UndeliveredSome(log, v.watcher.at + 1, v.watcher.upto);
  }

  /** A step of the watcher never raises the budget of its VCP, and lowers it if it writes anything. */
  ghost predicate PaysWatch(n: nat, log: seq<Event>, p: nat, v: Vcp, eff: WatchEffect) {
    && (eff.puts == [] || (|eff.puts| == 1 && eff.puts[0].HeadPut? && eff.puts[0].player == p))
    && VcpBudget(n, log + eff.puts, p, eff.vcp) <= VcpBudget(n, log, p, v)
    && (eff.puts != [] || eff.vcp.cells != v.cells ==> VcpBudget(n, log + eff.puts, p, eff.vcp) < VcpBudget(n, log, p, v))
  }

  /** Storing the head is paid for by the response. */
  lemma HeadBudget(n: nat, log: seq<Event>, p: nat, v: Vcp)
    requires WatchInv(log, p, v) && v.watcher.Handling? && v.watcher.at == v.watcher.upto
    ensures PaysWatch(n, log, p, v, WatchStep(log, p, v))
  {
    var e := HeadPut(p, v.watcher.upto);
    var w := WatchStep(log, p, v).vcp;
    UndeliveredAppend(log, v.watcher.upto, e);
    forall j | 0 <= j < |v.cells|
      ensures CellBudget(n, log + [e], p, j, v.cells[j]) <= CellBudget(n, log, p, j, v.cells[j])
    {
      CellFrameBudget(n, log, p, j, v.cells[j], e);
    }
    SumShift(CellBudgets(n, log, p, v), CellBudgets(n, log + [e], p, w), 0);
  }

  lemma ReceiveBudget(n: nat, log: seq<Event>, p: nat, v: Vcp, a: Action)
    requires WatchInv(log, p, v) && (a.Receive? || (a.WatchTick? && !v.watcher.Handling?))
    ensures PaysWatch(n, log, p, v, OperatorStep(log, p, v, a))
  {
    assert log + [] == log;
    var w := OperatorStep(log, p, v, a).vcp;
    if a.Receive? && w != v {
      UndeliveredSome(log, v.watcher.at, a.upto);
    }
    assert CellBudgets(n, log, p, w) == CellBudgets(n, log, p, v);
  }

  lemma OperatorProgress(n: nat, m: nat, s: State, a: Action)
    requires Steady(n, m, s) && !IsCellAction(a) && CleanAction(a) && PlayerOf(a) < n
    ensures var t := Next(n, m, s, a);
            && Budget(n, t) <= Budget(n, s)
            && (!SameWorld(s, t) ==> Budget(n, t) < Budget(n, s))
  {
    var p := PlayerOf(a);
    var v := s.vcps[p];
    var eff := OperatorStep(s.log, p, v, a);
    assert WatchInv(s.log, p, v);
    if a.WatchTick? && v.watcher.Handling? {
      if v.watcher.at < v.watcher.upto {
        WatchStepBudget(n, m, s.log, p, v);
      } else {
        HeadBudget(n, s.log, p, v);
      }
    } else {
      ReceiveBudget(n, s.log, p, v, a);
    }
    WithVcpBudget(n, m, s, p, eff);
  }

  lemma WithVcpBudget(n: nat, m: nat, s: State, p: nat, eff: WatchEffect)
    requires Inv(n, m, s) && p < n
    requires PaysWatch(n, s.log, p, s.vcps[p], eff)
    ensures var t := WithVcp(s, p, eff.vcp, eff.puts);
            && Budget(n, t) <= Budget(n, s)
            && (!SameWorld(s, t) ==> Budget(n, t) < Budget(n, s))
  {
    var t := WithVcp(s, p, eff.vcp, eff.puts);
    var x := VcpBudget(n, t.log, p, eff.vcp) - VcpBudget(n, s.log, p, s.vcps[p]);
    forall r | 0 <= r < n && r != p ensures VcpBudget(n, t.log, r, t.vcps[r]) <= VcpBudget(n, s.log, r, s.vcps[r]) {
      assert WatchInv(s.log, r, s.vcps[r]);
      if eff.puts == [] {
        assert t.log == s.log;
      } else {
        assert eff.puts == [eff.puts[0]];
        OtherVcp(n, s.log, r, s.vcps[r], eff.puts[0]);
      }
    }
    SumChange(VcpBudgets(n, s), VcpBudgets(n, t), p, 0, x);
    if eff.puts == [] && eff.vcp.cells == s.vcps[p].cells {
      assert t.log == s.log;
      assert SameWorld(s, t);
    }
  }

  /** In a steady state no clean step raises the budget, and every operator step that changes anything in etcd,
      Kubernetes or Castor lowers it. */
  lemma Progress(n: nat, m: nat, s: State, a: Action)
    requires Steady(n, m, s) && CleanAction(a)
    ensures var t := Next(n, m, s, a);
            && 0 <= Budget(n, t) <= Budget(n, s)
            && (ByOperator(a) && !SameWorld(s, t) ==> Budget(n, t) < Budget(n, s))
  {
    var t := Next(n, m, s, a);
    if PlayerOf(a) < n && (IsCellAction(a) ==> a.job < m) {
      if IsCellAction(a) {
        CellProgress(n, m, s, a);
      } else {
        OperatorProgress(n, m, s, a);
      }
    } else {
      assert SameWorld(s, t);
    }
    CleanStep(n, m, s, a);
    BudgetIsNatural(n, m, t);
  }

  lemma BudgetIsNatural(n: nat, m: nat, s: State)
    requires Inv(n, m, s)
    ensures Budget(n, s) >= 0
  {
    forall p | 0 <= p < n ensures VcpBudget(n, s.log, p, s.vcps[p]) >= 0 {
      assert WatchInv(s.log, p, s.vcps[p]);
      SumNat(CellBudgets(n, s.log, p, s.vcps[p]));
      if s.vcps[p].watcher.Handling? {
        UndeliveredSome(s.log, s.vcps[p].watcher.at, s.vcps[p].watcher.upto);
      }
    }
    SumNat(VcpBudgets(n, s));
  }

  /** The number of operator steps, among some actions, that change something. */
  ghost function Writes(n: nat, m: nat, s: State, acts: seq<Action>): nat
    requires Shape(n, m, s)
    decreases |acts|
  {
    if acts == [] then 0
    else
      var t := Next(n, m, s, acts[0]);
      (if ByOperator(acts[0]) && !SameWorld(s, t) then 1 else 0) + Writes(n, m, t, acts[1..])
  }

  /** From a steady state on, however long the run goes on without faults, operators write a bounded number of times. */
  lemma {:induction false} WritesFromSteady(n: nat, m: nat, s: State, acts: seq<Action>)
    requires Steady(n, m, s) && CleanRun(acts)
    ensures Steady(n, m, After(n, m, s, acts)) && 0 <= Budget(n, After(n, m, s, acts))
    ensures Writes(n, m, s, acts) + Budget(n, After(n, m, s, acts)) <= Budget(n, s)
    decreases |acts|
  {
    if acts == [] {
      BudgetIsNatural(n, m, s);
    } else {
      assert acts[0] in acts;
      Progress(n, m, s, acts[0]);
      CleanStep(n, m, s, acts[0]);
      WritesFromSteady(n, m, Next(n, m, s, acts[0]), acts[1..]);
    }
  }

  /** Termination: the number of writes of a clean run, however long, is bounded by a number that depends on the numbers
      of VCPs and jobs only. */
  lemma FinitelyManyWrites(n: nat, m: nat, acts: seq<Action>)
    requires CleanRun(acts)
    ensures Writes(n, m, Init(n, m), acts) <= Budget(n, Init(n, m))
  {
    SteadyReachable(n, m, []);
    WritesFromSteady(n, m, Init(n, m), acts);
  }
}

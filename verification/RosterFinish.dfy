/** Every run in which no handler has failed can be finished, whatever crashes, replays and failing calls it contains:
    operators go on undisturbed, pods end, load balancers get addresses, and then every job of player 0 is done
    everywhere. */
module RosterFinish {
  import opened Wrappers
  import opened EtcdLog
  import opened RosterModel
  import opened RosterSafety
  import opened RosterReplay
  import opened RosterTheorems
  import opened RosterEndpoints
  import opened RosterClean
  import opened RosterConvergence
  import opened RosterSettle
  import opened RosterRest

  /** What a cell still waits for from its environment. */
  function Awaited(c: Cell): nat {
    var o := c.owned;
    (if o.generator.Some? && !Finished(o.generator.value.phase) then 1 else 0)
    + (if o.provisioner.Some? && !Finished(o.provisioner.value) then 1 else 0)
    + (if o.service.Some? && !Addressed(o.service.value) then 1 else 0)
  }

  // Two facts that hold in all runs: services are load balancers, and jobs stay.

  ghost predicate Lasting(n: nat, m: nat, s: State, j: nat)
    requires Shape(n, m, s) && 0 < n && j < m
  {
    && s.vcps[0].cells[j].job.Some?
    && forall p, i :: 0 <= p < n && 0 <= i < m ==> Balanced(s.vcps[p].cells[i].owned)
  }

  predicate Balanced(o: Owned) {
    o.service.Some? ==> o.service.value.loadBalancer
  }

  lemma CellBalanced(n: nat, log: seq<Event>, p: nat, j: nat, c: Cell, a: Action)
    requires IsCellAction(a) && Balanced(c.owned)
    ensures Balanced(CellStep(n, log, p, j, c, a).cell.owned)
    ensures c.job.Some? ==> CellStep(n, log, p, j, c, a).cell.job.Some?
  {
  }

  lemma OperatorBalanced(log: seq<Event>, p: nat, v: Vcp, a: Action)
    requires !IsCellAction(a) && forall e :: e in log ==> !e.RosterDelete?
    ensures var w := OperatorStep(log, p, v, a).vcp;
            && |w.cells| == |v.cells|
            && forall i :: 0 <= i < |v.cells| ==>
                 w.cells[i].owned == v.cells[i].owned && (v.cells[i].job.Some? ==> w.cells[i].job.Some?)
  {
  }

  lemma LastingStays(n: nat, m: nat, s: State, a: Action, j: nat)
    requires Shape(n, m, s) && 0 < n && j < m && Lasting(n, m, s, j) && forall e :: e in s.log ==> !e.RosterDelete?
    ensures Lasting(n, m, Next(n, m, s, a), j)
  {
    var p := PlayerOf(a);
    if p < n && (IsCellAction(a) ==> a.job < m) {
      if IsCellAction(a) {
        assert Balanced(s.vcps[p].cells[a.job].owned);
        CellBalanced(n, s.log, p, a.job, s.vcps[p].cells[a.job], a);
      } else {
        OperatorBalanced(s.log, p, s.vcps[p], a);
        assert forall i :: 0 <= i < m ==> Balanced(s.vcps[p].cells[i].owned);
      }
    }
  }

  lemma {:induction false} LastingAfter(n: nat, m: nat, s: State, acts: seq<Action>, j: nat)
    requires Inv(n, m, s) && 0 < n && j < m && Lasting(n, m, s, j)
    ensures Inv(n, m, After(n, m, s, acts)) && Lasting(n, m, After(n, m, s, acts), j)
    decreases |acts|
  {
    if acts != [] {
      NextKeeps(n, m, s, acts[0]);
      NoDeletes(n, s.log);
      LastingStays(n, m, s, acts[0], j);
      LastingAfter(n, m, Next(n, m, s, acts[0]), acts[1..], j);
    }
  }

  lemma {:induction false} RunBalanced(n: nat, m: nat, acts: seq<Action>)
    ensures forall p, i :: 0 <= p < n && 0 <= i < m ==> Balanced(Run(n, m, acts).vcps[p].cells[i].owned)
  {
    if acts != [] {
      var before, a := acts[..|acts| - 1], acts[|acts| - 1];
      var s := Run(n, m, before);
      RunBalanced(n, m, before);
      Reachable(n, m, before);
      NoDeletes(n, s.log);
      var p := PlayerOf(a);
      if p < n && (IsCellAction(a) ==> a.job < m) {
        if IsCellAction(a) {
          CellBalanced(n, s.log, p, a.job, s.vcps[p].cells[a.job], a);
        } else {
          OperatorBalanced(s.log, p, s.vcps[p], a);
        }
      }
    }
  }

  // Finishing a run.

  /** Operators go on undisturbed, pods run, load balancers get addresses. */
  predicate Undisturbed(acts: seq<Action>) {
    forall a :: a in acts ==> OperatorTick(a) || a.GeneratorPhase? || a.ProvisionerPhase? || a.SetIngress?
  }

  /** What the environment does next for a cell that waits for it. */
  function Help(p: nat, j: nat, o: Owned): (a: Action)
    ensures CleanAction(a) && IsCellAction(a) && Undisturbed([a])
  {
    if o.generator.Some? && !Finished(o.generator.value.phase) then GeneratorPhase(p, j, PodSucceeded)
    else if o.provisioner.Some? && !Finished(o.provisioner.value) then ProvisionerPhase(p, j, PodSucceeded)
    else SetIngress(p, j, [Ingress("10.0.0.1", "")])
  }

  lemma HelpLowers(n: nat, log: seq<Event>, p: nat, j: nat, c: Cell)
    requires Awaited(c) > 0 && Balanced(c.owned)
    ensures var eff := CellStep(n, log, p, j, c, Help(p, j, c.owned)); eff.puts == [] && Awaited(eff.cell) < Awaited(c)
  {
  }

  /** Helping lowers what is awaited and raises no budget. */
  lemma HelpStep(n: nat, m: nat, s: State, p: nat, j: nat)
    requires Steady(n, m, s) && p < n && j < m
    requires Awaited(s.vcps[p].cells[j]) > 0 && Balanced(s.vcps[p].cells[j].owned)
    ensures var t := Next(n, m, s, Help(p, j, s.vcps[p].cells[j].owned));
            Steady(n, m, t) && 0 <= Budget(n, t) <= Budget(n, s) && Total(Awaited, t) < Total(Awaited, s)
  {
    var c := s.vcps[p].cells[j];
    var a := Help(p, j, c.owned);
    HelpLowers(n, s.log, p, j, c);
    TotalFalls(Awaited, s, p, j, CellStep(n, s.log, p, j, c, a).cell, []);
    CleanStep(n, m, s, a);
    Progress(n, m, s, a);
  }

  ghost predicate NothingAwaited(n: nat, m: nat, s: State)
    requires Shape(n, m, s)
  {
    forall p, j :: 0 <= p < n && 0 <= j < m ==> Awaited(s.vcps[p].cells[j]) == 0
  }

  /** By operator steps and help a state is reached that is quiet and awaits nothing. */
  lemma {:induction false} Finish(n: nat, m: nat, s: State, k: nat) returns (more: seq<Action>)
    requires Steady(n, m, s) && 0 < n && k < m && Lasting(n, m, s, k)
    ensures Undisturbed(more) && AtRest(n, m, After(n, m, s, more)) && NothingAwaited(n, m, After(n, m, s, more))
    decreases Budget(n, s), Total(Awaited, s)
  {
    BudgetIsNatural(n, m, s);
    TotalIsNatural(Awaited, s);
    if !NothingAwaited(n, m, s) {
      var p, j :| 0 <= p < n && 0 <= j < m && Awaited(s.vcps[p].cells[j]) != 0;
      var a := Help(p, j, s.vcps[p].cells[j].owned);
      assert Balanced(s.vcps[p].cells[j].owned);
      HelpStep(n, m, s, p, j);
      NoDeletes(n, s.log);
      LastingStays(n, m, s, a, k);
      var rest := Finish(n, m, Next(n, m, s, a), k);
      AfterOne(n, m, s, a, rest);
      assert a in [a];
      more := [a] + rest;
    } else if !Quiet(n, m, s) {
      var first :| OperatorTicks(first) && !SameWorld(s, After(n, m, s, first));
      TicksProgress(n, m, s, first);
      BudgetIsNatural(n, m, After(n, m, s, first));
      LastingAfter(n, m, s, first, k);
      var rest := Finish(n, m, After(n, m, s, first), k);
      AfterConcat(n, m, s, first, rest);
      more := first + rest;
    } else {
      more := [];
    }
  }

  lemma {:induction false} RunAfter(n: nat, m: nat, acts: seq<Action>, more: seq<Action>)
    ensures Run(n, m, acts + more) == After(n, m, Run(n, m, acts), more)
    decreases |more|
  {
    if more == [] {
      assert acts + more == acts;
    } else {
      assert (acts + [more[0]])[..|acts|] == acts;
      RunAfter(n, m, acts + [more[0]], more[1..]);
      assert acts + more == (acts + [more[0]]) + more[1..];
    }
  }

  /** Convergence after faults: every run without handler failures in which player 0 has a job can be continued,
      undisturbed, to a state in which that job has ended: Failed everywhere, or Completed and activated everywhere
      or, if its id identifies no chunk, Completed by all generators and provisioners but open. */
  lemma EveryRunCanFinish(n: nat, m: nat, acts: seq<Action>, j: nat) returns (more: seq<Action>)
    requires DropFree(acts) && 0 < n && j < m && Run(n, m, acts).vcps[0].cells[j].job.Some?
    ensures Undisturbed(more)
    ensures Done(n, Run(n, m, acts + more), j)
  {
    var s := Run(n, m, acts);
    Reachable(n, m, acts);
    RunBalanced(n, m, acts);
    more := Settles(n, m, acts);
    LastingAfter(n, m, s, more, j);
    var rest := Finish(n, m, After(n, m, s, more), j);
    AfterConcat(n, m, s, more, rest);
    more := more + rest;
    RunAfter(n, m, acts, more);
    LastingAfter(n, m, s, more, j);
    RestIsReady(n, m, After(n, m, s, more), j);
    ReadyMeansDone(n, After(n, m, s, more), j);
  }
}

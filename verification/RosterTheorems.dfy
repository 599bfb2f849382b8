/** The main safety results of the roster protocol, for every number of VCPs and jobs and every run: interleavings,
    crashes, failed API calls, watch failures with replay, and dropped watch events included. */
module RosterTheorems {
  import opened Wrappers
  import opened EtcdLog
  import opened RosterModel
  import opened RosterSafety
  import opened RosterReplay

  function CellOf(s: State, p: nat, j: nat): Cell
    requires p < |s.vcps| && j < |s.vcps[p].cells|
  {
    s.vcps[p].cells[j]
  }

  predicate HasJobState(c: Cell, st: JobState) {
    c.job.Some? && c.job.value.state == st
  }

  // Faults.

  /** A failed call, a lost event, a broken watch or a crash loses what was read, but no stored value and no resource;
      the other VCPs do not notice. */
  lemma FaultsLoseNoResource(n: nat, m: nat, s: State, a: Action, p: nat, j: nat)
    requires Shape(n, m, s) && p < n && j < m
    requires a.JobAbort? || a.TaskAbort? || a.Drop? || a.Reconnect? || a.Crash?
    ensures var t := Next(n, m, s, a); var c, d := CellOf(s, p, j), CellOf(t, p, j); var v, w := s.vcps[p], t.vcps[p];
            && t.log == s.log && d.job == c.job && d.tasks == c.tasks && d.owned == c.owned && d.activated == c.activated
            && (a.player != p ==> w == v)
            && (a == JobAbort(p, j) ==> d == c.(jobPc := JobIdle) && w.watcher == v.watcher)
            && (a == TaskAbort(p, j) ==> d == c.(taskPc := TaskIdle) && w.watcher == v.watcher)
            && (a == Reconnect(p) ==> w == v.(watcher := Reading))
            && (a == Crash(p) ==> w.watcher == Reading && d.jobPc == JobIdle && d.taskPc == TaskIdle)
            && (a == Drop(p) && v.watcher.Handling? && v.watcher.at < v.watcher.upto ==>
                  d == c && w.watcher == Handling(v.watcher.base, v.watcher.at + 1, v.watcher.upto, false))
  {
  }

  // Runs only extend the log.

  lemma {:induction false} LogGrows(n: nat, m: nat, acts: seq<Action>, more: seq<Action>)
    ensures Run(n, m, acts).log <= Run(n, m, acts + more).log
    decreases |more|
  {
    if more == [] {
      assert acts + more == acts;
    } else {
      var init, a := more[..|more| - 1], more[|more| - 1];
      LogGrows(n, m, acts, init);
      assert acts + more == (acts + init) + [a];
      assert (acts + more)[..|acts + more| - 1] == acts + init;
    }
  }

  lemma {:induction false} OutcomesPersist(n: nat, log: seq<Event>, longer: seq<Event>, j: nat)
    requires ValidLog(n, longer) && log <= longer && ValidLog(n, log)
    ensures AllCompleted(n, log, j) ==> AllCompleted(n, longer, j)
    ensures SomeFailed(n, log, j) ==> SomeFailed(n, longer, j)
  {
    forall q | 0 <= q < n && Entry(log, j, q).Some? && Terminal(Entry(log, j, q).value.state)
      ensures Entry(longer, j, q) == Entry(log, j, q)
    {
      EntryWasPut(n, log, j, q);
      assert EntryPut(j, q, Entry(log, j, q).value) in longer;
      HeldIsOvertaken(n, longer, j, q, Entry(log, j, q).value);
    }
  }

  /** No VCP ever completes a job that another VCP ever fails, not even at different times of a run. */
  lemma OutcomeAgreement(n: nat, m: nat, acts: seq<Action>, more: seq<Action>, p: nat, r: nat, j: nat)
    requires 0 < n && p < n && r < n && j < m
    ensures var now, later := CellOf(Run(n, m, acts), p, j), CellOf(Run(n, m, acts + more), r, j);
            && !(HasJobState(now, JobCompleted) && HasJobState(later, JobFailed))
            && !(HasJobState(now, JobFailed) && HasJobState(later, JobCompleted))
  {
    var s, t := Run(n, m, acts), Run(n, m, acts + more);
    Reachable(n, m, acts);
    Reachable(n, m, acts + more);
    LogGrows(n, m, acts, more);
    assert CellInv(n, s.log, p, j, s.vcps[p].cells[j]) && CellInv(n, t.log, r, j, t.vcps[r].cells[j]);
    OutcomesPersist(n, s.log, t.log, j);
  }

  /** A chunk is activated only if all roster entries in etcd are Completed (and they stay so); a job is Completed
      only after its own chunk was activated. */
  lemma ActivationSafety(n: nat, m: nat, acts: seq<Action>, more: seq<Action>, p: nat, j: nat)
    requires p < n && j < m
    ensures var c := CellOf(Run(n, m, acts), p, j);
            && (HasJobState(c, JobCompleted) ==> c.activated)
            && (c.activated ==> c.job.Some? && c.job.value.spec.idIsUuid)
            && (c.activated ==>
                  AllCompleted(n, Run(n, m, acts).log, j) && AllCompleted(n, Run(n, m, acts + more).log, j))
  {
    var s, t := Run(n, m, acts), Run(n, m, acts + more);
    Reachable(n, m, acts);
    Reachable(n, m, acts + more);
    LogGrows(n, m, acts, more);
    assert CellInv(n, s.log, p, j, s.vcps[p].cells[j]);
    OutcomesPersist(n, s.log, t.log, j);
  }

  /** All VCPs work on one specification, the one that player 0 has published, as soon as it has. */
  lemma SpecAgreement(n: nat, m: nat, acts: seq<Action>, p: nat, r: nat, j: nat)
    requires p < n && r < n && j < m
    ensures var c, d := CellOf(Run(n, m, acts), p, j), CellOf(Run(n, m, acts), r, j);
            c.job.Some? && d.job.Some? ==> c.job.value.spec == d.job.value.spec
    ensures var s := Run(n, m, acts); var c := CellOf(s, p, j);
            && (c.job.Some? && Roster(s.log, j).Some? ==> c.job.value.spec == Roster(s.log, j).value)
            && (c.job.Some? && p != 0 ==> Roster(s.log, j).Some?)
  {
    var s := Run(n, m, acts);
    Reachable(n, m, acts);
    assert CellInv(n, s.log, p, j, s.vcps[p].cells[j]) && CellInv(n, s.log, r, j, s.vcps[r].cells[j]);
  }

  /** The clean-up branches of both reconcilers never delete anything, every job has at most one roster, and the
      roster precedes all entries. */
  lemma Causality(n: nat, m: nat, acts: seq<Action>, i: nat)
    requires i < |Run(n, m, acts).log|
    ensures var log := Run(n, m, acts).log;
            && !log[i].RosterDelete? && !log[i].EntryDelete?
            && (log[i].EntryPut? ==> exists k :: 0 <= k < i && log[k].RosterPut? && log[k].job == log[i].job)
            && (log[i].RosterPut? ==>
                  forall k :: 0 <= k < |log| && k != i ==> !(log[k].RosterPut? && log[k].job == log[i].job))
  {
    var log := Run(n, m, acts).log;
    Reachable(n, m, acts);
    NoDeletes(n, log);
    assert log[i] in log;
    ValidPrefix(n, log, i);
    if log[i].EntryPut? {
      RosterIsSomewhere(log[..i], log[i].job);
    }
    if log[i].RosterPut? {
      forall k | 0 <= k < |log| && k != i ensures !(log[k].RosterPut? && log[k].job == log[i].job) {
        if log[k].RosterPut? && log[k].job == log[i].job {
          var a, b := if i < k then i else k, if i < k then k else i;
          ValidPrefix(n, log, b);
          assert log[..b][a] == log[a];
          RosterWasPut(n, log[..b], log[i].job, log[a].spec);
        }
      }
    }
  }

  lemma {:induction false} RosterIsSomewhere(log: seq<Event>, j: nat)
    requires Roster(log, j).Some?
    ensures exists k :: 0 <= k < |log| && log[k].RosterPut? && log[k].job == j
  {
    var e := log[|log| - 1];
    if !(e.RosterPut? && e.job == j) {
      RosterIsSomewhere(log[..|log| - 1], j);
      var k :| 0 <= k < |log| - 1 && log[..|log| - 1][k].RosterPut? && log[..|log| - 1][k].job == j;
      assert log[k] == log[..|log| - 1][k];
    }
  }

  // The life of a roster entry.

  /** All values etcd has held for a player, in order. */
  function History(log: seq<Event>, j: nat, q: nat): seq<TaskStatus> {
    if log == [] then []
    else
      var e := log[|log| - 1];
      History(log[..|log| - 1], j, q) + (if e.EntryPut? && e.job == j && e.player == q then [e.status] else [])
  }

  predicate LegalLife(h: seq<TaskStatus>) {
    && (h != [] ==> h[0] == FIRST)
    && (forall i :: 0 <= i < |h| - 1 ==> Edge(h[i], h[i + 1]))
  }

  lemma {:induction false} HistoryIsLegal(n: nat, log: seq<Event>, j: nat, q: nat)
    requires ValidLog(n, log)
    ensures var h := History(log, j, q);
            LegalLife(h) && Entry(log, j, q) == if h == [] then None else Some(h[|h| - 1])
  {
    if log != [] {
      HistoryIsLegal(n, log[..|log| - 1], j, q);
    }
  }

  /** Along a life stages rise, except that an endpoint may be published again while the entry is Preparing. A terminal
      state is visited at the end only, an endpoint never disappears, and it stays as it is from Launching on. */
  lemma {:induction false} LegalLifeShape(h: seq<TaskStatus>, i: nat, k: nat)
    requires LegalLife(h) && i < k < |h|
    ensures !Terminal(h[i].state) && (Rank(h[i]) < Rank(h[k]) || BothPublished(h[i], h[k]))
    ensures h[i].endpoint != "" ==> h[k].endpoint != ""
    ensures h[i].state != Preparing ==> h[k].endpoint == h[i].endpoint
    decreases k
  {
    assert Edge(h[i], h[i + 1]) && Edge(h[k - 1], h[k]);
    if i < k - 1 {
      LegalLifeShape(h, i, k - 1);
    }
  }

  /** Over every run, a roster entry starts as Preparing, moves only along the coded edges, never leaves Completed or
      Failed, and keeps its endpoint from Launching on. Module RosterEndpoints says when it has only one. */
  lemma EntryLifeCycle(n: nat, m: nat, acts: seq<Action>, j: nat, q: nat)
    ensures LegalLife(History(Run(n, m, acts).log, j, q))
    ensures var h := History(Run(n, m, acts).log, j, q);
            && (forall i :: 0 <= i < |h| - 1 ==> !Terminal(h[i].state))
            && (forall i, k :: 0 <= i < |h| && 0 <= k < |h| && Rank(h[i]) > 2 && Rank(h[k]) > 2 ==>
                  h[i].endpoint == h[k].endpoint)
  {
    var h := History(Run(n, m, acts).log, j, q);
    Reachable(n, m, acts);
    HistoryIsLegal(n, Run(n, m, acts).log, j, q);
    forall i | 0 <= i < |h| - 1 ensures !Terminal(h[i].state) {
      LegalLifeShape(h, i, i + 1);
    }
    forall i, k | 0 <= i < k < |h| && Rank(h[i]) > 2 ensures h[k].endpoint == h[i].endpoint {
      LegalLifeShape(h, i, k);
    }
  }

  /** Although an operator may crash between creating a pod and recording the state, at most one generator and one
      provisioner pod are created per job; the stages of the entry say what has happened, and the volume claim exists
      from Launching to Provisioning. */
  lemma PodLifeCycle(n: nat, m: nat, acts: seq<Action>, p: nat, j: nat)
    requires p < n && j < m
    ensures var o := CellOf(Run(n, m, acts), p, j).owned;
            && o.generators <= 1 && o.provisioners <= 1
            && (match Entry(Run(n, m, acts).log, j, p)
                case None => o.generators == 0 && o.provisioners == 0
                case Some(st) => Backed(o, st))
  {
    var s := Run(n, m, acts);
    Reachable(n, m, acts);
    assert CellInv(n, s.log, p, j, s.vcps[p].cells[j]);
  }

  /** Whatever happens, a task shows the initial status or one that etcd has held for its player. */
  lemma ProxiesShowHistory(n: nat, m: nat, acts: seq<Action>, p: nat, j: nat, q: nat)
    requires p < n && j < m && q in CellOf(Run(n, m, acts), p, j).tasks
    ensures var st := CellOf(Run(n, m, acts), p, j).tasks[q];
            st == BLANK || st in History(Run(n, m, acts).log, j, q)
  {
    var s := Run(n, m, acts);
    var c := s.vcps[p].cells[j];
    Reachable(n, m, acts);
    assert CellInv(n, s.log, p, j, c);
    if c.tasks[q] != BLANK {
      HeldIsInHistory(s.log, j, q, c.tasks[q]);
    }
  }

  lemma {:induction false} HeldIsInHistory(log: seq<Event>, j: nat, q: nat, st: TaskStatus)
    requires EntryPut(j, q, st) in log
    ensures st in History(log, j, q)
  {
    var before, e := log[..|log| - 1], log[|log| - 1];
    assert log == before + [e];
    if e != EntryPut(j, q, st) {
      HeldIsInHistory(before, j, q, st);
    }
  }

  // Delivery.

  /** Every roster event at or below the stored head was dispatched, and the head never decreases. */
  lemma Delivery(n: nat, m: nat, acts: seq<Action>, more: seq<Action>, p: nat)
    requires p < n
    ensures var s, t := Run(n, m, acts), Run(n, m, acts + more);
            && Head(s.log, p) <= s.vcps[p].done <= |s.log|
            && Head(s.log, p) <= Head(t.log, p)
  {
    Reachable(n, m, acts);
    Reachable(n, m, acts + more);
    LogGrows(n, m, acts, more);
    HeadMonotone(n, Run(n, m, acts).log, Run(n, m, acts + more).log, p);
  }

  lemma {:induction false} HeadMonotone(n: nat, log: seq<Event>, longer: seq<Event>, p: nat)
    requires ValidLog(n, longer) && log <= longer
    ensures Head(log, p) <= Head(longer, p)
    decreases |longer|
  {
    if |log| < |longer| {
      HeadMonotone(n, log, longer[..|longer| - 1], p);
    } else {
      assert log == longer;
    }
  }

  lemma StepDispatches(log: seq<Event>, p: nat, v: Vcp, a: Action)
    requires !IsCellAction(a)
    ensures var w := OperatorStep(log, p, v, a).vcp;
            w.done != v.done ==> w.done == v.done + 1 && v.watcher.Handling? && v.watcher.at == v.done
                                 && (a.WatchTick? || a.Drop?)
  {
  }

  /** No event is skipped: the count of dispatched events moves by one, and only when the watcher is at exactly the
      first event that was not dispatched yet and handles it (or its handler fails). */
  lemma NoSkip(n: nat, m: nat, acts: seq<Action>, a: Action, p: nat)
    requires p < n
    ensures var s, t := Run(n, m, acts), Run(n, m, acts + [a]);
            t.vcps[p].done != s.vcps[p].done ==>
              && t.vcps[p].done == s.vcps[p].done + 1
              && s.vcps[p].watcher.Handling? && s.vcps[p].watcher.at == s.vcps[p].done
              && (a == WatchTick(p) || a == Drop(p))
  {
    assert (acts + [a])[..|acts|] == acts;
    var s := Run(n, m, acts);
    if PlayerOf(a) == p && !IsCellAction(a) {
      StepDispatches(s.log, p, s.vcps[p], a);
    }
  }

  /** Unless a handler failed: a watcher that has caught up with the furthest event it ever dispatched, after any
      number of restarts and replays, has exactly the jobs and proxies of one in-order pass over these events. */
  lemma CaughtUpTables(n: nat, m: nat, acts: seq<Action>, p: nat, j: nat)
    requires p < n && j < m && DropFree(acts)
    requires var v := Run(n, m, acts).vcps[p]; v.watcher.Reading? || v.watcher.at == v.done
    requires Run(n, m, acts).vcps[p].watcher.Reading? ==> Head(Run(n, m, acts).log, p) == Run(n, m, acts).vcps[p].done
    ensures var s := Run(n, m, acts); var v := s.vcps[p];
            && v.done <= |s.log|
            && (forall q :: 0 <= q < n && q != p ==> Shows(v.cells[j].tasks, q, Entry(s.log[..v.done], j, q)))
            && (p != 0 ==> (v.cells[j].job.Some? <==> Roster(s.log[..v.done], j).Some?))
  {
    var s := Run(n, m, acts);
    var v := s.vcps[p];
    Reachable(n, m, acts);
    TablesReachable(n, m, acts);
    assert TableInv(n, m, s.log, p, v);
    assert s.log[0..v.done] == s.log[..v.done];
    forall q | 0 <= q < n && q != p ensures Shows(v.cells[j].tasks, q, Entry(s.log[..v.done], j, q)) {
      assert ProxyInv(s.log, Base(s.log, p, v), At(s.log, p, v), v.done, j, q, v.cells[j].tasks);
      BetweenSplit(n, s.log, 0, Base(s.log, p, v), v.done, j, q);
    }
  }

  /** Unless a handler failed: whenever an entry event is about to be handled, the lookup of its job succeeds. */
  lemma JobLookupSucceeds(n: nat, m: nat, acts: seq<Action>, p: nat)
    requires p < n && DropFree(acts)
    ensures var s := Run(n, m, acts); var v := s.vcps[p];
            v.watcher.Handling? && v.watcher.at < v.watcher.upto <= |s.log| && s.log[v.watcher.at].EntryPut?
            && s.log[v.watcher.at].player != p && s.log[v.watcher.at].job < m ==>
              v.cells[s.log[v.watcher.at].job].job.Some?
  {
    var s := Run(n, m, acts);
    Reachable(n, m, acts);
    TablesReachable(n, m, acts);
    var v := s.vcps[p];
    if v.watcher.Handling? && v.watcher.at < v.watcher.upto <= |s.log| && s.log[v.watcher.at].EntryPut?
       && s.log[v.watcher.at].player != p && s.log[v.watcher.at].job < m {
      EntryEventFacts(n, m, s.log, p, v);
    }
  }
}

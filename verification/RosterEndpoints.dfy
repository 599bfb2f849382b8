/** How many endpoints a player publishes for a job. The task reconciler skips tasks that it cannot read when it
    collects the endpoints; if it misses its own task, it takes its endpoint for unpublished. */
module RosterEndpoints {
  import opened Wrappers
  import opened EtcdLog
  import opened RosterModel
  import opened RosterSafety
  import opened RosterReplay
  import opened RosterTheorems

  predicate TwoEndpoints(h: seq<TaskStatus>) {
    exists i, k :: 0 <= i < |h| && 0 <= k < |h| && h[i].endpoint != "" && h[k].endpoint != ""
                   && h[i].endpoint != h[k].endpoint
  }

  /** The reconciler collects endpoints, misses its own task although its endpoint is published, and its load balancer
      has another address by now. */
  predicate Overwrites(c: Cell, q: nat, unread: set<nat>) {
    && c.taskPc.Collect? && q in unread
    && c.taskPc.status.endpoint != "" && Addressed(c.taskPc.service)
    && Address(c.taskPc.service) + ":5000" != c.taskPc.status.endpoint
  }

  /** The steps of the task reconciler of player q for job j, and what interrupts it. */
  predicate TaskAction(a: Action, q: nat, j: nat) {
    ((a.TaskTick? || a.TaskAbort?) && a.player == q && a.job == j) || a == Crash(q)
  }

  predicate IsTick(a: Action, q: nat, j: nat) {
    a.TaskTick? && a.player == q && a.job == j
  }

  /** Step i of a run overwrites, and the reconciler has taken no step and has not been interrupted since. */
  ghost predicate Pending(n: nat, m: nat, acts: seq<Action>, j: nat, q: nat, i: nat)
    requires q < n && j < m
  {
    && i < |acts| && IsTick(acts[i], q, j)
    && Overwrites(CellOf(Run(n, m, acts[..i]), q, j), q, acts[i].unread)
    && forall k :: i < k < |acts| ==> !TaskAction(acts[k], q, j)
  }

  /** Step i overwrites, and step k, the next one of the reconciler, which is not interrupted in between, stores it. */
  ghost predicate Republishes(n: nat, m: nat, acts: seq<Action>, j: nat, q: nat, i: nat, k: nat)
    requires q < n && j < m
  {
    k < |acts| && Pending(n, m, acts[..k], j, q, i) && IsTick(acts[k], q, j)
  }

  ghost predicate Republished(n: nat, m: nat, acts: seq<Action>, j: nat, q: nat)
    requires q < n && j < m
  {
    exists i, k :: Republishes(n, m, acts, j, q, i, k)
  }

  // One step.

  /** The reconciler is about to replace a published endpoint. */
  predicate Replaces(log: seq<Event>, j: nat, q: nat, c: Cell) {
    && c.taskPc.WriteStatus? && Entry(log, j, q).Some?
    && Entry(log, j, q).value.endpoint != "" && c.taskPc.status.endpoint != Entry(log, j, q).value.endpoint
  }

  lemma CollectReplaces(n: nat, log: seq<Event>, q: nat, j: nat, c: Cell, u: set<nat>)
    requires q < n && CellInv(n, log, q, j, c) && c.taskPc.Collect?
    ensures TaskStep(n, log, q, j, c, u).puts == []
    ensures Replaces(log, j, q, TaskStep(n, log, q, j, c, u).cell) <==> Overwrites(c, q, u)
  {
    EndpointIs(c.taskPc.service);
    var endpoints := Endpoints(TasksForJob(n, c.tasks, u));
    if |endpoints| == n {
      FullTable(n, endpoints);
      assert q in endpoints;
    }
  }

  /** It is after a tick exactly if the tick overwrites. */
  lemma TickReplaces(n: nat, log: seq<Event>, q: nat, j: nat, c: Cell, u: set<nat>)
    requires q < n && CellInv(n, log, q, j, c)
    ensures var eff := TaskStep(n, log, q, j, c, u);
            Replaces(log + eff.puts, j, q, eff.cell) <==> Overwrites(c, q, u)
  {
    var eff := TaskStep(n, log, q, j, c, u);
    if c.taskPc.Collect? {
      CollectReplaces(n, log, q, j, c, u);
      assert log + eff.puts == log;
    } else if c.taskPc.PutEntry? || c.taskPc.WriteStatus? {
      assert eff.cell.taskPc == TaskIdle || eff.cell.taskPc == GetStatus;
    } else {
      assert eff.puts == [] && log + eff.puts == log;
    }
  }

  /** Everything else leaves the entry alone. */
  lemma OtherActionsPut(n: nat, m: nat, s: State, a: Action, j: nat, q: nat)
    requires Inv(n, m, s) && q < n && j < m && !IsTick(a, q, j)
    ensures var t := Next(n, m, s, a);
            History(t.log, j, q) == History(s.log, j, q) && Entry(t.log, j, q) == Entry(s.log, j, q)
  {
    var p := PlayerOf(a);
    if p < n && IsCellAction(a) && a.job < m {
      var c := s.vcps[p].cells[a.job];
      CellStepPuts(n, s.log, p, a.job, c, a);
      if !a.TaskTick? {
        CellCounter(n, s.log, p, c, a);
      }
      PutElsewhere(s.log, CellStep(n, s.log, p, a.job, c, a).puts, j, q);
    } else if p < n && !IsCellAction(a) {
      OperatorStepKeeps(n, m, s.log, p, s.vcps[p], a);
      PutElsewhere(s.log, OperatorStep(s.log, p, s.vcps[p], a).puts, j, q);
    }
  }

  /** And the counter, unless it is an interruption. */
  lemma OtherActionsCount(n: nat, m: nat, s: State, a: Action, j: nat, q: nat)
    requires Shape(n, m, s) && q < n && j < m && !IsTick(a, q, j)
    ensures CellOf(Next(n, m, s, a), q, j).taskPc == if TaskAction(a, q, j) then TaskIdle else CellOf(s, q, j).taskPc
  {
    var p := PlayerOf(a);
    if p == q && IsCellAction(a) && a.job == j {
      CellCounter(n, s.log, p, s.vcps[p].cells[j], a);
    } else if p == q && !IsCellAction(a) {
      OperatorCounter(s.log, p, s.vcps[p], a, j);
    }
  }

  lemma CellCounter(n: nat, log: seq<Event>, p: nat, c: Cell, a: Action)
    requires IsCellAction(a) && !a.TaskTick?
    ensures CellStep(n, log, p, a.job, c, a).cell.taskPc == if a.TaskAbort? then TaskIdle else c.taskPc
    ensures forall e :: e in CellStep(n, log, p, a.job, c, a).puts ==> !e.EntryPut?
  {
  }

  lemma OperatorCounter(log: seq<Event>, p: nat, v: Vcp, a: Action, j: nat)
    requires !IsCellAction(a) && j < |v.cells|
    ensures var w := OperatorStep(log, p, v, a).vcp;
            j < |w.cells| && w.cells[j].taskPc == if a.Crash? then TaskIdle else v.cells[j].taskPc
  {
  }

  lemma PutElsewhere(log: seq<Event>, puts: seq<Event>, j: nat, q: nat)
    requires |puts| <= 1
    requires forall e :: e in puts ==> !e.EntryDelete? && !(e.EntryPut? && e.job == j && e.player == q)
    ensures History(log + puts, j, q) == History(log, j, q) && Entry(log + puts, j, q) == Entry(log, j, q)
  {
    if puts == [] {
      assert log + puts == log;
    } else {
      assert puts == [puts[0]] && puts[0] in puts;
      Append(log, puts[0]);
      HistoryMore(log, puts[0], j, q);
    }
  }

  lemma HistoryMore(log: seq<Event>, e: Event, j: nat, q: nat)
    ensures History(log + [e], j, q)
            == History(log, j, q) + if e.EntryPut? && e.job == j && e.player == q then [e.status] else []
  {
    assert (log + [e])[..|log|] == log;
  }

  /** A tick adds a second endpoint exactly if it replaces the first one. */
  lemma TickHistory(n: nat, log: seq<Event>, q: nat, j: nat, c: Cell, u: set<nat>)
    requires q < n && ValidLog(n, log) && CellInv(n, log, q, j, c)
    ensures TwoEndpoints(History(log + TaskStep(n, log, q, j, c, u).puts, j, q))
            <==> TwoEndpoints(History(log, j, q)) || Replaces(log, j, q, c)
  {
    var puts := TaskStep(n, log, q, j, c, u).puts;
    HistoryIsLegal(n, log, j, q);
    if puts == [] {
      assert log + puts == log;
    } else {
      TickPuts(n, log, q, j, c, u);
      HistoryMore(log, puts[0], j, q);
      OneMore(History(log, j, q), puts[0].status);
    }
  }

  lemma TickPuts(n: nat, log: seq<Event>, q: nat, j: nat, c: Cell, u: set<nat>)
    requires TaskPcInv(n, log, q, j, c)
    ensures var puts := TaskStep(n, log, q, j, c, u).puts;
            if c.taskPc.PutEntry? then puts == [EntryPut(j, q, FIRST)] && Entry(log, j, q).None?
            else if c.taskPc.WriteStatus? then
              && puts == [EntryPut(j, q, c.taskPc.status)] && Entry(log, j, q).Some?
              && (Entry(log, j, q).value.endpoint != "" ==> c.taskPc.status.endpoint != "")
            else puts == []
  {
  }

  lemma OneMore(h: seq<TaskStatus>, st: TaskStatus)
    requires LegalLife(h) && (h != [] ==> h[|h| - 1].endpoint != "" ==> st.endpoint != "")
    ensures TwoEndpoints(h + [st])
            <==> TwoEndpoints(h) || (h != [] && h[|h| - 1].endpoint != "" && st.endpoint != h[|h| - 1].endpoint)
  {
    var g := h + [st];
    if TwoEndpoints(h) {
      var i, k :| 0 <= i < |h| && 0 <= k < |h| && h[i].endpoint != "" && h[k].endpoint != ""
                  && h[i].endpoint != h[k].endpoint;
      assert g[i] == h[i] && g[k] == h[k];
    } else if h != [] {
      forall i | 0 <= i < |h| && h[i].endpoint != "" ensures h[i].endpoint == h[|h| - 1].endpoint {
        if i < |h| - 1 {
          LegalLifeShape(h, i, |h| - 1);
        }
      }
      assert g[|h|] == st && g[|h| - 1] == h[|h| - 1];
    }
  }

  // Whole runs.

  lemma PendingMore(n: nat, m: nat, before: seq<Action>, a: Action, j: nat, q: nat, i: nat)
    requires q < n && j < m
    ensures var now := i == |before| && IsTick(a, q, j)
                       && Overwrites(CellOf(Run(n, m, before), q, j), q, a.unread);
            Pending(n, m, before + [a], j, q, i)
            <==> now || (Pending(n, m, before, j, q, i) && !TaskAction(a, q, j))
  {
    var acts := before + [a];
    if i <= |before| {
      assert acts[..i] == before[..i];
    }
    assert before[..|before|] == before;
    if Pending(n, m, acts, j, q, i) && i < |before| {
      forall k | i < k < |before| ensures !TaskAction(before[k], q, j) {
        assert acts[k] == before[k];
      }
      assert acts[|before|] == a;
    }
  }

  lemma RepublishesMore(n: nat, m: nat, before: seq<Action>, a: Action, j: nat, q: nat, i: nat, k: nat)
    requires q < n && j < m
    ensures Republishes(n, m, before + [a], j, q, i, k)
            <==> Republishes(n, m, before, j, q, i, k)
                 || (k == |before| && Pending(n, m, before, j, q, i) && IsTick(a, q, j))
  {
    if k <= |before| {
      assert (before + [a])[..k] == before[..k];
    }
    assert before[..|before|] == before;
  }

  ghost predicate SomePending(n: nat, m: nat, acts: seq<Action>, j: nat, q: nat)
    requires q < n && j < m
  {
    exists i :: Pending(n, m, acts, j, q, i)
  }

  lemma SomePendingMore(n: nat, m: nat, before: seq<Action>, a: Action, j: nat, q: nat)
    requires q < n && j < m
    ensures SomePending(n, m, before + [a], j, q)
            <==> if IsTick(a, q, j) then Overwrites(CellOf(Run(n, m, before), q, j), q, a.unread)
                 else !TaskAction(a, q, j) && SomePending(n, m, before, j, q)
  {
    forall i: nat ensures
      Pending(n, m, before + [a], j, q, i)
      <==> (i == |before| && IsTick(a, q, j) && Overwrites(CellOf(Run(n, m, before), q, j), q, a.unread))
           || (Pending(n, m, before, j, q, i) && !TaskAction(a, q, j))
    {
      PendingMore(n, m, before, a, j, q, i);
    }
    assert Pending(n, m, before + [a], j, q, |before|)
           <==> IsTick(a, q, j) && Overwrites(CellOf(Run(n, m, before), q, j), q, a.unread) by {
      PendingMore(n, m, before, a, j, q, |before|);
    }
  }

  lemma RepublishedMore(n: nat, m: nat, before: seq<Action>, a: Action, j: nat, q: nat)
    requires q < n && j < m
    ensures Republished(n, m, before + [a], j, q)
            <==> Republished(n, m, before, j, q) || (IsTick(a, q, j) && SomePending(n, m, before, j, q))
  {
    forall i: nat, k: nat ensures
      Republishes(n, m, before + [a], j, q, i, k)
      <==> Republishes(n, m, before, j, q, i, k)
           || (k == |before| && Pending(n, m, before, j, q, i) && IsTick(a, q, j))
    {
      RepublishesMore(n, m, before, a, j, q, i, k);
    }
    if IsTick(a, q, j) && SomePending(n, m, before, j, q) {
      var i :| Pending(n, m, before, j, q, i);
      assert Republishes(n, m, before + [a], j, q, i, |before|);
    }
    if Republished(n, m, before, j, q) {
      var i, k :| Republishes(n, m, before, j, q, i, k);
      assert Republishes(n, m, before + [a], j, q, i, k);
    }
    if Republished(n, m, before + [a], j, q) {
      var i, k :| Republishes(n, m, before + [a], j, q, i, k);
    }
  }

  /** Exactly when a player publishes two endpoints: the reconciler misses its own task while it collects endpoints, its
      load balancer has another address than the published one, and nothing interrupts it before it stores that. */
  lemma {:induction false} TwoEndpointsIff(n: nat, m: nat, acts: seq<Action>, j: nat, q: nat)
    requires q < n && j < m
    ensures var s := Run(n, m, acts);
            && (TwoEndpoints(History(s.log, j, q)) <==> Republished(n, m, acts, j, q))
            && (Replaces(s.log, j, q, CellOf(s, q, j)) <==> SomePending(n, m, acts, j, q))
  {
    if acts == [] {
      assert CellOf(Run(n, m, []), q, j) == EMPTY;
    } else {
      var before, a := acts[..|acts| - 1], acts[|acts| - 1];
      var s := Run(n, m, before);
      assert acts == before + [a];
      TwoEndpointsIff(n, m, before, j, q);
      SomePendingMore(n, m, before, a, j, q);
      RepublishedMore(n, m, before, a, j, q);
      Reachable(n, m, before);
      if IsTick(a, q, j) {
        assert CellInv(n, s.log, q, j, s.vcps[q].cells[j]);
        TickHistory(n, s.log, q, j, s.vcps[q].cells[j], a.unread);
        TickReplaces(n, s.log, q, j, s.vcps[q].cells[j], a.unread);
      } else {
        OtherActionsPut(n, m, s, a, j, q);
        OtherActionsCount(n, m, s, a, j, q);
      }
    }
  }

  /** Unless that happens a player publishes at most one endpoint per job, crashes or not; and any two generator pods of
      any two VCPs that list the player list it with that endpoint. */
  lemma EndpointAgreement(n: nat, m: nat, acts: seq<Action>, p: nat, r: nat, j: nat, q: nat)
    requires p < n && r < n && q < n && j < m && !Republished(n, m, acts, j, q)
    ensures var s := Run(n, m, acts);
            && !TwoEndpoints(History(s.log, j, q))
            && (var c, d := CellOf(s, p, j).owned.generator, CellOf(s, r, j).owned.generator;
                c.Some? && d.Some? && q in c.value.endpoints && q in d.value.endpoints ==>
                  c.value.endpoints[q] == d.value.endpoints[q] == Published(s.log, j, q) != "")
  {
    TwoEndpointsIff(n, m, acts, j, q);
    var s := Run(n, m, acts);
    PodListsPublished(n, m, acts, p, j, q);
    PodListsPublished(n, m, acts, r, j, q);
  }

  /** A generator pod lists published endpoints only; the one that is stored if its player has published no other. */
  lemma PodListsPublished(n: nat, m: nat, acts: seq<Action>, p: nat, j: nat, q: nat)
    requires p < n && j < m && q < n
    ensures var s := Run(n, m, acts); var pod := CellOf(s, p, j).owned.generator;
            pod.Some? && q in pod.value.endpoints ==>
              && pod.value.endpoints[q] != ""
              && (exists st :: st in History(s.log, j, q) && st.endpoint == pod.value.endpoints[q])
              && (!TwoEndpoints(History(s.log, j, q)) ==> pod.value.endpoints[q] == Published(s.log, j, q))
  {
    var s := Run(n, m, acts);
    var pod := CellOf(s, p, j).owned.generator;
    Reachable(n, m, acts);
    assert CellInv(n, s.log, p, j, s.vcps[p].cells[j]);
    if pod.Some? && q in pod.value.endpoints {
      var st :| EntryPut(j, q, st) in s.log && st.endpoint == pod.value.endpoints[q];
      HeldIsOvertaken(n, s.log, j, q, st);
      HeldIsInHistory(s.log, j, q, st);
      HistoryIsLegal(n, s.log, j, q);
      var h := History(s.log, j, q);
      assert h[|h| - 1].endpoint == Published(s.log, j, q) != "";
    }
  }

  // A run in which it happens: player 0 works on job 0, and its own task is never readable.

  /** The state of n VCPs and one job in which only the cell of player 0 has ever been touched. */
  function Only(n: nat, log: seq<Event>, c: Cell): State
    requires n > 0
  {
    State(log, Init(n, 1).vcps[0 := Vcp([c], Reading, 0)])
  }

  lemma OnlyStep(n: nat, acts: seq<Action>, log: seq<Event>, c: Cell, a: Action)
    requires n > 0 && Run(n, 1, acts) == Only(n, log, c) && IsCellAction(a) && PlayerOf(a) == 0 && a.job == 0
    ensures var eff := CellStep(n, log, 0, 0, c, a);
            Run(n, 1, acts + [a]) == Only(n, log + eff.puts, eff.cell)
    ensures log + [] == log
  {
    var eff := CellStep(n, log, 0, 0, c, a);
    assert (acts + [a])[..|acts|] == acts;
    assert [c][0 := eff.cell] == [eff.cell];
    var vcps := Init(n, 1).vcps;
    assert vcps[0 := Vcp([c], Reading, 0)][0 := Vcp([eff.cell], Reading, 0)] == vcps[0 := Vcp([eff.cell], Reading, 0)];
  }

  const UNREAD := TaskTick(0, 0, {0})

  /** The job is submitted, its roster published and the local task created. */
  lemma JobPrepared(n: nat, spec: JobSpec) returns (acts: seq<Action>, c: Cell)
    requires n > 0
    ensures Run(n, 1, acts) == Only(n, [RosterPut(0, spec)], c)
    ensures c == EMPTY.(job := Some(Job(spec, JobUnset)), tasks := map[0 := BLANK])
  {
    var job := Job(spec, JobUnset);
    var log := [RosterPut(0, spec)];
    acts := [];
    assert Init(n, 1).vcps[0].cells == [EMPTY];
    assert Init(n, 1).vcps[0 := Vcp([EMPTY], Reading, 0)] == Init(n, 1).vcps;
    c := EMPTY.(job := Some(job));
    OnlyStep(n, acts, [], EMPTY, SubmitJob(0, spec));
    acts := acts + [SubmitJob(0, spec)];
    OnlyStep(n, acts, [], c, JobTick(0, 0));
    OnlyStep(n, acts + [JobTick(0, 0)], [], c.(jobPc := GetRoster(job)), JobTick(0, 0));
    acts := acts + [JobTick(0, 0)] + [JobTick(0, 0)];
    OnlyStep(n, acts, [], c.(jobPc := PutRoster(job)), JobTick(0, 0));
    OnlyStep(n, acts + [JobTick(0, 0)], log, c.(jobPc := GetTask(job)), JobTick(0, 0));
    acts := acts + [JobTick(0, 0)] + [JobTick(0, 0)];
    OnlyStep(n, acts, log, c.(jobPc := CreateTask), JobTick(0, 0));
    acts := acts + [JobTick(0, 0)];
    c := c.(tasks := map[0 := BLANK]);
  }

  /** The roster entry is created, and the reconciler stops where it reads its status. */
  lemma EntryPrepared(n: nat, acts: seq<Action>, log: seq<Event>, c: Cell) returns (more: seq<Action>)
    requires n > 0 && Run(n, 1, acts) == Only(n, log, c) && c.taskPc == TaskIdle && 0 in c.tasks
    ensures Run(n, 1, more) == Only(n, if Entry(log, 0, 0).Some? then log else log + [EntryPut(0, 0, FIRST)],
                                    c.(taskPc := GetStatus))
  {
    OnlyStep(n, acts, log, c, UNREAD);
    OnlyStep(n, acts + [UNREAD], log, c.(taskPc := GetEntry), UNREAD);
    more := acts + [UNREAD] + [UNREAD];
    if Entry(log, 0, 0).None? {
      OnlyStep(n, more, log, c.(taskPc := PutEntry), UNREAD);
      more := more + [UNREAD];
    }
  }

  /** A pass of the task reconciler up to the point where it collects the endpoints. */
  lemma Collects(n: nat, acts: seq<Action>, log: seq<Event>, c: Cell, st: TaskStatus)
    returns (more: seq<Action>, d: Cell)
    requires n > 0 && Run(n, 1, acts) == Only(n, log, c) && c.taskPc == GetStatus && 0 in c.tasks && c.job.Some?
    requires Entry(log, 0, 0) == Some(st) && st.state == Preparing
    ensures Run(n, 1, more) == Only(n, log, d) && d.owned.service.Some?
    ensures d == c.(tasks := c.tasks[0 := st], owned := d.owned, taskPc := Collect(st, d.owned.service.value))
    ensures d.owned.service == if c.owned.service.Some? then c.owned.service else Some(Service(true, []))
  {
    OnlyStep(n, acts, log, c, UNREAD);
    OnlyStep(n, acts + [UNREAD], log, c.(taskPc := RefreshTask(st)), UNREAD);
    more := acts + [UNREAD] + [UNREAD];
    d := c.(tasks := c.tasks[0 := st], taskPc := Act(st));
    OnlyStep(n, more, log, d, UNREAD);
    d := d.(owned := d.owned.(pvc := true), taskPc := EnsureService(st));
    OnlyStep(n, more + [UNREAD], log, d, UNREAD);
    more := more + [UNREAD] + [UNREAD];
    var service := if d.owned.service.Some? then d.owned.service.value else Service(true, []);
    d := d.(owned := d.owned.(service := Some(service)), taskPc := Collect(st, service));
  }

  /** Between two passes: the job, the local task and the service exist. */
  predicate BetweenPasses(c: Cell) {
    && c.taskPc == TaskIdle && c.job.Some? && c.tasks.Keys == {0}
    && c.owned.service.Some? && c.owned.service.value.loadBalancer
  }

  /** Having missed its own task, the reconciler stores the current address, whatever was published before. */
  lemma Stores(n: nat, acts: seq<Action>, log: seq<Event>, c: Cell, st: TaskStatus, service: Service, ip: string)
    returns (more: seq<Action>)
    requires n > 0 && Run(n, 1, acts) == Only(n, log, c) && c.taskPc == Collect(st, service) && c.tasks.Keys == {0}
    requires Endpoint(service) == Ok(Some(ip))
    ensures Run(n, 1, more) == Only(n, log + [EntryPut(0, 0, st.(endpoint := ip + ":" + PORT))], c.(taskPc := TaskIdle))
  {
    assert TasksForJob(n, c.tasks, {0}) == map[];
    assert Endpoints(map[]) == map[];
    OnlyStep(n, acts, log, c, UNREAD);
    var d := c.(taskPc := WriteStatus(st.(endpoint := ip + ":" + PORT)));
    OnlyStep(n, acts + [UNREAD], log, d, UNREAD);
    more := acts + [UNREAD] + [UNREAD];
  }

  /** The load balancer gets an address, and the next pass publishes it. */
  lemma Publishes(n: nat, acts: seq<Action>, log: seq<Event>, c: Cell, st: TaskStatus, ip: string)
    returns (more: seq<Action>, d: Cell)
    requires n > 0 && Run(n, 1, acts) == Only(n, log, c) && BetweenPasses(c) && ip != ""
    requires Entry(log, 0, 0) == Some(st) && st.state == Preparing
    ensures Run(n, 1, more) == Only(n, log + [EntryPut(0, 0, st.(endpoint := ip + ":" + PORT))], d) && BetweenPasses(d)
  {
    var address := SetIngress(0, 0, [Ingress(ip, "")]);
    var service := Service(true, [Ingress(ip, "")]);
    OnlyStep(n, acts, log, c, address);
    d := c.(owned := c.owned.(service := Some(service)));
    more := EntryPrepared(n, acts + [address], log, d);
    more, d := Collects(n, more, log, d.(taskPc := GetStatus), st);
    more := Stores(n, more, log, d, st, service, ip);
    d := d.(taskPc := TaskIdle);
  }

  /** The start: the job, the task, the entry and a service without an address. */
  lemma Starts(n: nat, spec: JobSpec) returns (acts: seq<Action>, c: Cell)
    requires n > 0
    ensures Run(n, 1, acts) == Only(n, [RosterPut(0, spec), EntryPut(0, 0, FIRST)], c) && BetweenPasses(c)
  {
    acts, c := JobPrepared(n, spec);
    var log := [RosterPut(0, spec)];
    acts := EntryPrepared(n, acts, log, c);
    log := log + [EntryPut(0, 0, FIRST)];
    acts, c := Collects(n, acts, log, c.(taskPc := GetStatus), FIRST);
    OnlyStep(n, acts, log, c, TaskAbort(0, 0));
    acts, c := acts + [TaskAbort(0, 0)], c.(taskPc := TaskIdle);
  }

  /** For every number of VCPs there is a run in which player 0 publishes two endpoints for a job. */
  lemma TwoEndpointsHappen(n: nat, spec: JobSpec) returns (acts: seq<Action>)
    requires n > 0
    ensures History(Run(n, 1, acts).log, 0, 0)
            == [FIRST, TaskStatus(Preparing, "a:5000"), TaskStatus(Preparing, "b:5000")]
    ensures TwoEndpoints(History(Run(n, 1, acts).log, 0, 0)) && Republished(n, 1, acts, 0, 0)
  {
    var c;
    acts, c := Starts(n, spec);
    var log := [RosterPut(0, spec), EntryPut(0, 0, FIRST)];
    var a, b := TaskStatus(Preparing, "a:5000"), TaskStatus(Preparing, "b:5000");
    assert "a" + ":" + PORT == a.endpoint && "b" + ":" + PORT == b.endpoint;
    acts, c := Publishes(n, acts, log, c, FIRST, "a");
    Append(log, EntryPut(0, 0, a));
    acts, c := Publishes(n, acts, log + [EntryPut(0, 0, a)], c, a, "b");
    ThreeValues(spec, a, b);
    var h := History(Run(n, 1, acts).log, 0, 0);
    assert h[1].endpoint != h[2].endpoint;
    TwoEndpointsIff(n, 1, acts, 0, 0);
  }

  lemma ThreeValues(spec: JobSpec, a: TaskStatus, b: TaskStatus)
    ensures History([RosterPut(0, spec), EntryPut(0, 0, FIRST)] + [EntryPut(0, 0, a)] + [EntryPut(0, 0, b)], 0, 0)
            == [FIRST, a, b]
  {
    var log := [RosterPut(0, spec), EntryPut(0, 0, FIRST)];
    assert log == [] + [RosterPut(0, spec)] + [EntryPut(0, 0, FIRST)];
    HistoryMore([], RosterPut(0, spec), 0, 0);
    HistoryMore([RosterPut(0, spec)], EntryPut(0, 0, FIRST), 0, 0);
    HistoryMore(log, EntryPut(0, 0, a), 0, 0);
    HistoryMore(log + [EntryPut(0, 0, a)], EntryPut(0, 0, b), 0, 0);
  }
}
